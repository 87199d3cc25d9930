/**
 One claim and one manual per handoff: what holds of every run in which no prune reads the
 clock in the very millisecond of the record's expiry and no editor puts back a pending
 copy of a record that was removed; and what goes wrong in the runs that do.
 */
module ClaimAgreement {
  import opened Basics
  import opened Handoff
  import opened ClaimProtocol

  // ---------- the runs ----------

  // The two things the code relies on but does not enforce.
  predicate Careful(w: World, e: Event) {
    && (e.PruneList? ==> w.origin.expiresAt != Some(w.now))
    && (e.EditorSave? && w.editor.SawAbsent? ==> !IsPending(w.editor.copy))
  }

  predicate CarefulRun(w: World, events: seq<Event>)
    decreases |events|
  {
    events == [] || (Careful(w, events[0]) && CarefulRun(Apply(w, events[0]), events[1..]))
  }

  // ---------- the invariant ----------

  predicate Expired(w: World) { w.origin.expiresAt.Some? && w.origin.expiresAt.value < w.now }

  // No operation ever changes these fields.
  predicate SameHandoff(r: Record, origin: Record) {
    && r.draftId == origin.draftId && r.action == origin.action && r.draftUpdatedAt == origin.draftUpdatedAt
    && r.fingerprint == origin.fingerprint && r.expiresAt == origin.expiresAt
  }

  // Which identifiers a record of each status carries.
  predicate Shaped(r: Record) {
    && (r.status.Unset? ==> r.claimIntentId.None? && r.manualId.None?)
    && (r.status.FinalizePending? ==> r.operationId.Some? && r.claimIntentId.Some? && r.manualId.None?)
    && (r.status.CompletionPending? || r.status.Completed? ==> r.manualId.Some?)
    && (r.claimIntentId.Some? ==> r.operationId.Some?)
  }

  predicate Agrees(o: Option<string>, known: Option<string>) { o.Some? ==> o == known }

  predicate Within(x: Ids, known: Ids) {
    && Agrees(x.operationId, known.operationId)
    && Agrees(x.claimIntentId, known.claimIntentId)
    && Agrees(x.manualId, known.manualId)
  }

  predicate Ours(w: World, r: Record) { SameHandoff(r, w.origin) && Shaped(r) && Within(IdsOf(r), w.ids) }

  // Once a claim was announced, the record disappears only after the manual was confirmed.
  predicate NothingOpen(w: World) { w.ids.claimIntentId.Some? ==> w.ids.manualId.Some? }

  // The durable record carries everything learnt, unless it was removed or is an old copy put
  // back after expiry.
  predicate RecordOk(w: World) {
    match w.record
    case None => (Expired(w) || w.ids == Ids(None, None, None)) && NothingOpen(w)
    case Some(r) => Ours(w, r) && (IdsOf(r) == w.ids || (Expired(w) && r.status.Unset? && NothingOpen(w)))
  }

  // What an operation read is still stored, or the handoff has expired and the read cannot lead to a write.
  predicate ReadOk(w: World, a: Action, read: Option<Record>) {
    read.Some? ==>
      && Ours(w, read.value)
      && (a == w.origin.action ==> w.record == read || (Expired(w) && !IsPending(read.value)))
  }

  predicate PendingOk(w: World, a: Action, p: Record) {
    a == w.origin.action && w.record == Some(p) && p.status.CompletionPending?
  }

  predicate OpOk(w: World, a: Action, op: Op) {
    match op
    case Idle => true
    case BeginRead(read) => ReadOk(w, a, read)
    case RecoveryRead(read) => ReadOk(w, a, read)
    case FinalizeRead(_, read) => ReadOk(w, a, read)
    case CompletedRead(_, _, read) => ReadOk(w, a, read)
    case BeginSaved(id, write) => a == w.origin.action && (write.Stored? ==> w.ids.operationId == Some(id))
    case FinalizeSaved(identity, write) =>
      a == w.origin.action &&
      (write.Stored? && identity.Known? ==>
         w.ids.operationId == Some(identity.operationId) && w.ids.claimIntentId == Some(identity.claimIntentId))
    case PendingSaved(p, write) => a == w.origin.action && (write.Stored? ==> PendingOk(w, a, p))
    case DraftRead(p, _) => PendingOk(w, a, p)
    case DraftHashed(p, _) => PendingOk(w, a, p)
    case DraftSettled(p, _) => PendingOk(w, a, p)
    case FinalSaved(p, write) => a == w.origin.action && (write.Stored? ==> p.manualId.Some? && w.ids.manualId == p.manualId)
  }

  predicate EditorOk(w: World) {
    && (!w.editor.Away? ==> Ours(w, w.editor.copy) && !w.editor.copy.status.Completed?)
    && (w.editor.SawAbsent? ==> w.record.None?)
  }

  predicate DoomedOk(w: World) {
    w.doomed > 0 ==> Expired(w) && (w.record.Some? ==> !IsPending(w.record.value))
  }

  ghost predicate Inv(w: World) {
    && RecordOk(w)
    && (forall a | a in w.ops :: OpOk(w, a, w.ops[a]))
    && EditorOk(w)
    && DoomedOk(w)
    && (forall r | r in w.replies && r.Ok? :: Within(r.ids, w.ids))
  }

  // What one stretch of code of an operation may do without breaking the invariant.
  predicate Harmless(w: World, a: Action, e: Effect) {
    var v := Store(w, e.put);
    && RecordOk(v) && OpOk(v, a, e.next)
    && (e.reply.Some? && e.reply.value.Ok? ==> Within(e.reply.value.ids, v.ids))
    && Within(w.ids, v.ids)
    && (e.put.Put? && !e.put.write.NotStored? ==>
          && a == w.origin.action && w.record.Some? && (!Expired(w) || IsPending(w.record.value))
          && Advances(w.record.value, e.put.record))
  }

  function Rank(s: Status): nat {
    match s case Unset => 0 case FinalizePending => 1 case CompletionPending => 2 case Completed => 3
  }

  // A record never goes back and never loses or changes an identifier.
  predicate Advances(r: Record, s: Record) {
    Rank(r.status) <= Rank(s.status) && Within(IdsOf(r), IdsOf(s)) && SameHandoff(s, r)
  }

  lemma BeginHarmless(w: World, a: Action, c: Choice, read: Option<Record>)
    requires RecordOk(w) && ReadOk(w, a, read)
    ensures Harmless(w, a, AfterBeginRead(w.now, a, c, read))
  {
  }

  lemma FinalizeHarmless(w: World, a: Action, c: Choice, identity: Identity, read: Option<Record>)
    requires RecordOk(w) && ReadOk(w, a, read) && identity.Known?
    ensures Harmless(w, a, AfterFinalizeRead(w.now, a, c, identity, read))
  {
    var e := AfterFinalizeRead(w.now, a, c, identity, read);
    if e.reply.Some? {
      AnswerHarmless(w, a, e.reply.value);
    } else {
      FinalizingHarmless(w, a, c, identity, read.value);
    }
  }

  lemma FinalizingHarmless(w: World, a: Action, c: Choice, identity: Identity, m: Record)
    requires RecordOk(w) && ReadOk(w, a, Some(m)) && identity.Known? && m.action == a && m.status.Unset? && Fresh(m, w.now)
    requires m.operationId.Some? ==> m.operationId.value == identity.operationId
    ensures var f := m.(status := FinalizePending, operationId := Some(identity.operationId), claimIntentId := Some(identity.claimIntentId));
            Harmless(w, a, Effect(Put(f, c.write), None, FinalizeSaved(identity, c.write), None))
  {
    assert a == w.origin.action && w.record == Some(m);
  }

  lemma CompletedAnswer(w: World, a: Action, c: Choice, manualId: string, identity: Identity, read: Option<Record>)
    requires ReadOk(w, a, read)
    ensures var e := AfterCompletedRead(w.now, w.drafts, a, c, manualId, identity, read);
            && (e.reply.Some? ==> e == Answer(e.reply.value))
            && (e.reply.Some? && e.reply.value.Ok? ==> Within(e.reply.value.ids, w.ids))
  {
    if read.Some? { assert Agrees(read.value.manualId, w.ids.manualId); }
  }

  lemma CompletedHarmless(w: World, a: Action, c: Choice, manualId: string, identity: Identity, read: Option<Record>)
    requires RecordOk(w) && ReadOk(w, a, read)
    ensures Harmless(w, a, AfterCompletedRead(w.now, w.drafts, a, c, manualId, identity, read))
  {
    var e := AfterCompletedRead(w.now, w.drafts, a, c, manualId, identity, read);
    if e.reply.Some? {
      CompletedAnswer(w, a, c, manualId, identity, read);
      AnswerHarmless(w, a, e.reply.value);
    } else if read.value.status.CompletionPending? {
      WaitHarmless(w, a, e.next);
    } else {
      PendingHarmless(w, a, c, manualId, read.value);
    }
  }

  lemma PendingHarmless(w: World, a: Action, c: Choice, manualId: string, m: Record)
    requires RecordOk(w) && ReadOk(w, a, Some(m)) && m.action == a && !m.status.Completed? && !m.status.CompletionPending?
    requires m.status.Unset? ==> Fresh(m, w.now)
    ensures var p := PendingOf(m, manualId); Harmless(w, a, Effect(Put(p, c.write), None, PendingSaved(p, c.write), None))
  {
  }

  lemma FinalHarmless(w: World, a: Action, c: Choice, p: Record)
    requires RecordOk(w) && PendingOk(w, a, p)
    ensures Harmless(w, a, SaveFinal(c, p))
  {
  }

  lemma WaitHarmless(w: World, a: Action, op: Op)
    requires RecordOk(w) && OpOk(w, a, op)
    ensures Harmless(w, a, Wait(op))
  {
  }

  lemma AnswerHarmless(w: World, a: Action, r: Reply)
    requires RecordOk(w) && (r.Ok? ==> Within(r.ids, w.ids))
    ensures Harmless(w, a, Answer(r))
  {
  }

  lemma DraftHarmless(w: World, a: Action, c: Choice, p: Record, draft: Option<Draft>)
    requires RecordOk(w) && PendingOk(w, a, p)
    ensures Harmless(w, a, AfterDraftRead(c, p, draft))
  {
    FinalHarmless(w, a, c, p);
    AnswerHarmless(w, a, Rejected(HandoffFailed));
    if draft.Some? && Canonicalize(draft.value).Some? { WaitHarmless(w, a, DraftHashed(p, Canonicalize(draft.value).value)); }
  }

  lemma DeleteHarmless(w: World, a: Action, c: Choice, p: Record, expected: Canonical)
    requires RecordOk(w) && PendingOk(w, a, p)
    ensures Harmless(w, a, TransactDelete(Lookup(w.drafts, p.draftId), c, p, expected))
  {
    WaitHarmless(w, a, DraftSettled(p, true));
    WaitHarmless(w, a, DraftSettled(p, false));
  }

  lemma RecoveryHarmless(w: World, a: Action, c: Choice, read: Option<Record>)
    requires RecordOk(w) && ReadOk(w, a, read)
    ensures Harmless(w, a, Failing(c, AfterRecoveryRead(a, read)))
  {
    AnswerHarmless(w, a, Failing(c, AfterRecoveryRead(a, read)).reply.value);
  }

  lemma EffectHarmless(w: World, a: Action, c: Choice)
    requires Inv(w)
    ensures Harmless(w, a, AdvanceOp(w.OpOf(a), w.now, w.drafts, a, c))
  {
    var op := w.OpOf(a);
    AnswerHarmless(w, a, Rejected(HandoffFailed));
    match op
    case Idle => WaitHarmless(w, a, Idle);
    case BeginRead(read) => BeginHarmless(w, a, c, read);
    case RecoveryRead(read) => RecoveryHarmless(w, a, c, read);
    case FinalizeRead(identity, read) =>
      if identity.Known? { FinalizeHarmless(w, a, c, identity, read); } else { AnswerHarmless(w, a, Rejected(RequestRejected)); }
    case CompletedRead(manualId, identity, read) => CompletedHarmless(w, a, c, manualId, identity, read);
    case PendingSaved(p, write) => if write.Stored? { WaitHarmless(w, a, DraftRead(p, Lookup(w.drafts, p.draftId))); }
    case DraftRead(p, draft) => DraftHarmless(w, a, c, p, draft);
    case DraftHashed(p, expected) => DeleteHarmless(w, a, c, p, expected);
    case DraftSettled(p, failed) => FinalHarmless(w, a, c, p);
    case BeginSaved(operationId, write) => SavedHarmless(w, a, c);
    case FinalizeSaved(identity, write) => SavedHarmless(w, a, c);
    case FinalSaved(p, write) => SavedHarmless(w, a, c);
  }

  lemma SavedHarmless(w: World, a: Action, c: Choice)
    requires RecordOk(w) && OpOk(w, a, w.OpOf(a))
    requires w.OpOf(a).BeginSaved? || w.OpOf(a).FinalizeSaved? || w.OpOf(a).FinalSaved?
    ensures Harmless(w, a, AdvanceOp(w.OpOf(a), w.now, w.drafts, a, c))
  {
  }

  // ---------- every step, every run ----------

  lemma OpKept(w: World, v: World, b: Action, op: Op)
    requires OpOk(w, b, op)
    requires v.origin == w.origin && Within(w.ids, v.ids) && (Expired(w) ==> Expired(v))
    requires v.record == w.record || b != w.origin.action
             || (w.record.Some? ==> Expired(v) && !IsPending(w.record.value))
    ensures OpOk(v, b, op)
  {
  }

  // How the durable record may change in one step.
  predicate RecordStep(w: World, v: World) {
    && v.origin == w.origin
    && Within(w.ids, v.ids)
    && (w.record.Some? && v.record.Some? ==> Advances(w.record.value, v.record.value))
    && (w.record.Some? && v.record.None? ==> !IsPending(w.record.value) && Expired(w))
  }

  lemma CommitOps(w: World, a: Action, e: Effect)
    requires Inv(w) && Harmless(w, a, e)
    ensures var v := Commit(w, a, e); forall b | b in v.ops :: OpOk(v, b, v.ops[b])
  {
    var v := Commit(w, a, e);
    forall b | b in v.ops ensures OpOk(v, b, v.ops[b]) {
      OpKept(Store(w, e.put), v, b, v.ops[b]) by {
        if b != a { OpKept(w, Store(w, e.put), b, v.ops[b]); }
      }
    }
  }

  lemma CommitEditor(w: World, a: Action, e: Effect)
    requires Inv(w) && Harmless(w, a, e)
    ensures EditorOk(Commit(w, a, e)) && DoomedOk(Commit(w, a, e))
  {
  }

  lemma CommitReplies(w: World, a: Action, e: Effect)
    requires Inv(w) && Harmless(w, a, e)
    ensures var v := Commit(w, a, e); forall r | r in v.replies && r.Ok? :: Within(r.ids, v.ids)
  {
  }

  lemma CommitStep(w: World, a: Action, e: Effect)
    requires Inv(w) && Harmless(w, a, e)
    ensures Inv(Commit(w, a, e)) && RecordStep(w, Commit(w, a, e))
  {
    CommitOps(w, a, e);
    CommitEditor(w, a, e);
    CommitReplies(w, a, e);
  }

  lemma OpsKept(w: World, v: World)
    requires forall b | b in w.ops :: OpOk(w, b, w.ops[b])
    requires v.origin == w.origin && Within(w.ids, v.ids) && (Expired(w) ==> Expired(v)) && v.ops == w.ops
    requires v.record == w.record || (w.record.Some? ==> Expired(v) && !IsPending(w.record.value))
    ensures forall b | b in v.ops :: OpOk(v, b, v.ops[b])
  {
    forall b | b in v.ops ensures OpOk(v, b, v.ops[b]) { OpKept(w, v, b, v.ops[b]); }
  }

  lemma StartHarmless(w: World, a: Action, m: Message)
    requires RecordOk(w)
    ensures Harmless(w, a, StartOp(w.record, m))
  {
    var e := StartOp(w.record, m);
    if e.reply.Some? { AnswerHarmless(w, a, e.reply.value); } else { WaitHarmless(w, a, e.next); }
  }

  lemma PruneStep(w: World, e: Event)
    requires Inv(w) && Careful(w, e) && (e.PruneList? || e.PruneRemove?)
    ensures Inv(Apply(w, e)) && RecordStep(w, Apply(w, e))
  {
    OpsKept(w, Apply(w, e));
  }

  lemma EditorSaveStep(w: World, write: Write)
    requires Inv(w) && Careful(w, EditorSave(write))
    ensures Inv(Apply(w, EditorSave(write))) && RecordStep(w, Apply(w, EditorSave(write)))
  {
    OpsKept(w, Apply(w, EditorSave(write)));
  }

  lemma EditorStep(w: World, e: Event)
    requires Inv(w) && (e.EditorFind? || e.EditorLook? || e.EditorLeave?)
    ensures Inv(Apply(w, e)) && RecordStep(w, Apply(w, e))
  {
    OpsKept(w, Apply(w, e));
  }

  lemma OtherStep(w: World, e: Event)
    requires Inv(w) && (e.Tick? || e.PutDraft? || e.Crash?)
    ensures Inv(Apply(w, e)) && RecordStep(w, Apply(w, e))
  {
    if !e.Crash? { OpsKept(w, Apply(w, e)); }
  }

  lemma InvStep(w: World, e: Event)
    requires Inv(w) && Careful(w, e)
    ensures Inv(Apply(w, e)) && RecordStep(w, Apply(w, e))
  {
    match e
    case Advance(a, c) =>
      EffectHarmless(w, a, c);
      CommitStep(w, a, AdvanceOp(w.OpOf(a), w.now, w.drafts, a, c));
    case Start(a, m) =>
      StartHarmless(w, a, m);
      CommitStep(w, a, StartOp(w.record, m));
    case PruneList => PruneStep(w, e);
    case PruneRemove(fails) => PruneStep(w, e);
    case Tick(elapsed) => OtherStep(w, e);
    case PutDraft(id, d) => OtherStep(w, e);
    case Crash => OtherStep(w, e);
    case EditorFind => EditorStep(w, e);
    case EditorLook => EditorStep(w, e);
    case EditorSave(write) => EditorSaveStep(w, write);
    case EditorLeave => EditorStep(w, e);
  }

  lemma {:induction false} InvRun(w: World, events: seq<Event>)
    requires Inv(w) && CarefulRun(w, events)
    ensures Inv(Run(w, events)) && Run(w, events).origin == w.origin
    ensures Within(w.ids, Run(w, events).ids)
    decreases |events|
  {
    if events == [] {
    } else {
      InvStep(w, events[0]);
      InvRun(Apply(w, events[0]), events[1..]);
    }
  }

  lemma {:induction false} Reachable(origin: Record, now: int, drafts: map<string, Draft>, events: seq<Event>)
    requires NewRecord(origin) && CarefulRun(Init(origin, now, drafts), events)
    ensures Inv(Run(Init(origin, now, drafts), events))
    ensures Run(Init(origin, now, drafts), events).origin == origin
  {
    InvRun(Init(origin, now, drafts), events);
  }

  // ---------- the results ----------

  predicate Same(x: Option<string>, y: Option<string>) { x.Some? && y.Some? ==> x == y }

  // All successful replies ever given for one handoff name one operation, one claim, one manual.
  lemma {:induction false} OkRepliesAgree(origin: Record, now: int, drafts: map<string, Draft>, events: seq<Event>, x: Reply, y: Reply)
    requires NewRecord(origin) && CarefulRun(Init(origin, now, drafts), events)
    requires var log := Run(Init(origin, now, drafts), events).replies; x in log && y in log
    requires x.Ok? && y.Ok?
    ensures Same(x.ids.operationId, y.ids.operationId)
    ensures Same(x.ids.claimIntentId, y.ids.claimIntentId)
    ensures Same(x.ids.manualId, y.ids.manualId)
  {
    Reachable(origin, now, drafts, events);
  }

  // In every reachable state every step moves the record forward only, keeps every stored
  // identifier, and removes the record only when it is not pending and has expired.
  lemma {:induction false} RecordOnlyAdvances(origin: Record, now: int, drafts: map<string, Draft>, events: seq<Event>, e: Event)
    requires NewRecord(origin) && CarefulRun(Init(origin, now, drafts), events)
    requires Careful(Run(Init(origin, now, drafts), events), e)
    ensures var w := Run(Init(origin, now, drafts), events); var v := Apply(w, e);
            && (w.record.Some? && v.record.Some? ==>
                  && Rank(w.record.value.status) <= Rank(v.record.value.status)
                  && Agrees(w.record.value.operationId, v.record.value.operationId)
                  && Agrees(w.record.value.claimIntentId, v.record.value.claimIntentId)
                  && Agrees(w.record.value.manualId, v.record.value.manualId))
            && (w.record.Some? && v.record.None? ==>
                  !IsPending(w.record.value) && origin.expiresAt.Some? && origin.expiresAt.value < w.now)
  {
    Reachable(origin, now, drafts, events);
    InvStep(Run(Init(origin, now, drafts), events), e);
  }

  // A claim that was announced and not yet confirmed is still stored, whatever crashed or expired.
  lemma {:induction false} AnnouncedClaimIsKept(origin: Record, now: int, drafts: map<string, Draft>, events: seq<Event>)
    requires NewRecord(origin) && CarefulRun(Init(origin, now, drafts), events)
    requires var w := Run(Init(origin, now, drafts), events); w.ids.claimIntentId.Some? && w.ids.manualId.None?
    ensures var w := Run(Init(origin, now, drafts), events);
            w.record.Some? && w.record.value.status.FinalizePending? && IdsOf(w.record.value) == w.ids
  {
    Reachable(origin, now, drafts, events);
  }
}
