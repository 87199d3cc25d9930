/** What every run of the claim protocol keeps. */
module ClaimSafety {
  import opened Basics
  import opened Handoff
  import opened ClaimProtocol
  import ClaimAgreement

  // ---------- deletion: holds of every run, whatever the environment does ----------

  // A completion-pending record that carries everything a deletion relies on.
  predicate Confirmed(r: Record) {
    r.status.CompletionPending? && r.manualId.Some? && r.fingerprint.Some? && Dated(r)
  }

  predicate Recorded(pendings: set<Record>, r: Option<Record>) {
    r.Some? && r.value.status.CompletionPending? ==> r.value in pendings
  }

  predicate OpRecorded(pendings: set<Record>, op: Op) {
    match op
    case Idle => true
    case BeginSaved(_, _) => true
    case FinalizeSaved(_, _) => true
    case BeginRead(read) => Recorded(pendings, read)
    case RecoveryRead(read) => Recorded(pendings, read)
    case FinalizeRead(_, read) => Recorded(pendings, read)
    case CompletedRead(_, _, read) => Recorded(pendings, read)
    case PendingSaved(p, write) => write.Stored? ==> p in pendings
    case DraftRead(p, _) => p in pendings
    case DraftHashed(p, expected) =>
      p in pendings && p.fingerprint.Some? && NamesCanonical(p.fingerprint.value, expected)
    case DraftSettled(p, _) => p in pendings
    case FinalSaved(p, _) => p in pendings
  }

  predicate EditorRecorded(pendings: set<Record>, editor: Editor) {
    !editor.Away? ==> Recorded(pendings, Some(editor.copy))
  }

  ghost predicate DeletionInv(w: World) {
    && (forall r | r in w.pendings :: Confirmed(r))
    && Recorded(w.pendings, w.record)
    && (forall a | a in w.ops :: OpRecorded(w.pendings, w.ops[a]))
    && EditorRecorded(w.pendings, w.editor)
  }

  function PutPendings(pendings: set<Record>, put: Put): set<Record> {
    if put.NoPut? || put.write.NotStored? || !put.record.status.CompletionPending? then pendings else pendings + {put.record}
  }

  lemma EffectRecorded(pendings: set<Record>, op: Op, now: int, drafts: map<string, Draft>, a: Action, c: Choice)
    requires forall r | r in pendings :: Confirmed(r)
    requires OpRecorded(pendings, op)
    ensures var e := AdvanceOp(op, now, drafts, a, c);
            && (e.put.Put? && e.put.record.status.CompletionPending? ==> Confirmed(e.put.record))
            && OpRecorded(PutPendings(pendings, e.put), e.next)
  {
  }

  lemma CommitRecorded(w: World, a: Action, e: Effect)
    requires DeletionInv(w) && OpRecorded(PutPendings(w.pendings, e.put), e.next)
    requires e.put.Put? && e.put.record.status.CompletionPending? ==> Confirmed(e.put.record)
    ensures DeletionInv(Commit(w, a, e)) && w.pendings <= Commit(w, a, e).pendings
  {
  }

  lemma DeletionInvStep(w: World, e: Event)
    requires DeletionInv(w)
    ensures DeletionInv(Apply(w, e)) && w.pendings <= Apply(w, e).pendings
  {
    match e
    case Advance(a, c) =>
      EffectRecorded(w.pendings, w.OpOf(a), w.now, w.drafts, a, c);
      CommitRecorded(w, a, AdvanceOp(w.OpOf(a), w.now, w.drafts, a, c));
    case Start(a, m) => if w.OpOf(a).Idle? { CommitRecorded(w, a, StartOp(w.record, m)); }
    case EditorSave(write) => EditorSaveRecorded(w, write);
    case _ =>
  }

  lemma EditorSaveRecorded(w: World, write: Write)
    requires DeletionInv(w)
    ensures DeletionInv(Apply(w, EditorSave(write))) && w.pendings <= Apply(w, EditorSave(write)).pendings
  {
  }

  lemma {:induction false} DeletionInvRun(w: World, events: seq<Event>)
    requires DeletionInv(w)
    ensures DeletionInv(Run(w, events))
    decreases |events|
  {
    if events == [] {
    } else {
      DeletionInvStep(w, events[0]);
      DeletionInvRun(Apply(w, events[0]), events[1..]);
    }
  }

  lemma EffectDeletes(op: Op, now: int, drafts: map<string, Draft>, a: Action, c: Choice, id: string)
    requires id in drafts && AdvanceOp(op, now, drafts, a, c).deletes == Some(id)
    ensures op.DraftHashed? && op.pending.draftId == id && drafts[id].updatedAt == op.pending.draftUpdatedAt
    ensures Canonicalize(drafts[id]) == Some(op.expected)
  {
  }

  lemma DraftsLeaveByTransaction(w: World, e: Event, id: string)
    requires id in w.drafts && id !in Apply(w, e).drafts
    ensures e.Advance? && w.OpOf(e.action).DraftHashed?
    ensures var p := w.OpOf(e.action).pending;
            && p.draftId == id && w.drafts[id].updatedAt == p.draftUpdatedAt
            && Canonicalize(w.drafts[id]) == Some(w.OpOf(e.action).expected)
  {
    match e
    case Advance(a, c) => EffectDeletes(w.OpOf(a), w.now, w.drafts, a, c, id);
    case _ =>
  }

  // Whatever happened before, a draft leaves the store only for a record that was durably
  // completion-pending with a manual, and only as exactly the content that record names.
  lemma {:induction false} OnlyClaimedDraftsLeave(origin: Record, now: int, drafts: map<string, Draft>, events: seq<Event>, e: Event, id: string)
    requires NewRecord(origin)
    requires var w := Run(Init(origin, now, drafts), events); id in w.drafts && id !in Apply(w, e).drafts
    ensures var w := Run(Init(origin, now, drafts), events);
            exists p | p in w.pendings ::
              && p.status.CompletionPending? && p.manualId.Some? && p.fingerprint.Some?
              && p.draftId == id
              && Names(p.fingerprint.value, w.drafts[id])
              && w.drafts[id].updatedAt == p.draftUpdatedAt
  {
    DeletionInvRun(Init(origin, now, drafts), events);
    var w := Run(Init(origin, now, drafts), events);
    DraftsLeaveByTransaction(w, e, id);
    assert w.OpOf(e.action).pending in w.pendings;
  }

  // In careful runs that record is still the durable one in the instant of the deletion.
  lemma {:induction false} DeletionSeesDurableRecord(origin: Record, now: int, drafts: map<string, Draft>, events: seq<Event>, e: Event, id: string)
    requires NewRecord(origin) && ClaimAgreement.CarefulRun(Init(origin, now, drafts), events)
    requires var w := Run(Init(origin, now, drafts), events); id in w.drafts && id !in Apply(w, e).drafts
    ensures var w := Run(Init(origin, now, drafts), events);
            && w.record.Some? && Confirmed(w.record.value) && w.record.value.draftId == id
            && Names(w.record.value.fingerprint.value, w.drafts[id])
            && Apply(w, e).record == w.record
  {
    ClaimAgreement.Reachable(origin, now, drafts, events);
    DeletionInvRun(Init(origin, now, drafts), events);
    var w := Run(Init(origin, now, drafts), events);
    DraftsLeaveByTransaction(w, e, id);
    assert ClaimAgreement.OpOk(w, e.action, w.OpOf(e.action));
  }
}
