/**
 The extension's side of the protocol in its own form: an object whose storage and queues are
 updated one stretch of code at a time. Every method refines the step of ClaimProtocol it is
 named after, so every result about Run holds of this object.
 */
module ClaimWorker {
  import opened Basics
  import opened Handoff
  import opened ClaimProtocol
  import ClaimSafety
  import ClaimAgreement

  class Worker {
    const origin: Record
    var now: int
    var record: Option<Record>
    var drafts: map<string, Draft>
    var ops: map<Action, Op>
    var doomed: nat
    var editor: Editor
    ghost var ids: Ids
    ghost var pendings: set<Record>
    var replies: seq<Reply>

    ghost function View(): World
      reads this
    {
      World(origin, now, record, drafts, ops, doomed, editor, ids, pendings, replies)
    }

    constructor (origin: Record, now: int, drafts: map<string, Draft>)
      ensures View() == Init(origin, now, drafts)
    {
      this.origin, this.now, this.drafts := origin, now, drafts;
      record, ops, doomed, editor := None, map[], 0, Holding(origin);
      ids, pendings, replies := Ids(None, None, None), {}, [];
    }

    // chrome.storage.local.set
    method SetRecord(r: Record, write: Write)
      modifies this`record, this`ids, this`pendings
      ensures View() == Store(old(View()), Put(r, write))
    {
      if write.NotStored? { return; }
      record := Some(r);
      ids := Learn(ids, r);
      if r.status.CompletionPending? { pendings := pendings + {r}; }
    }

    method Await(a: Action, op: Op)
      modifies this`ops
      ensures View() == old(View()).(ops := old(ops)[a := op])
    {
      ops := ops[a := op];
    }

    method Finish(a: Action, reply: Reply)
      modifies this`ops, this`replies
      ensures View() == old(View()).(ops := old(ops)[a := Idle], replies := old(replies) + [reply])
    {
      ops := ops[a := Idle];
      replies := replies + [reply];
    }

    method Receive(a: Action, m: Message)
      modifies this
      ensures View() == Apply(old(View()), Start(a, m))
    {
      if a in ops && !ops[a].Idle? { return; } // queued behind the running operation
      match m {
        case BeginMessage => Await(a, BeginRead(record));
        case RecoveryMessage => Await(a, RecoveryRead(record));
        case FinalizeMessage(identity) =>
          if !identity.Known? { Finish(a, Rejected(RequestRejected)); return; }
          Await(a, FinalizeRead(identity, record));
        case CompletedMessage(manualId, identity) =>
          if |manualId| < 1 || |manualId| > 128 { Finish(a, Rejected(RequestRejected)); return; }
          Await(a, CompletedRead(manualId, identity, record));
      }
    }

    method ResumeBegin(a: Action, c: Choice, read: Option<Record>)
      modifies this
      ensures View() == Commit(old(View()), a, AfterBeginRead(old(now), a, c, read))
    {
      if read.None? || read.value.action != a || read.value.fingerprint.None? || read.value.expiresAt.None? {
        Finish(a, Rejected(ExpiredOrUnknown));
        return;
      }
      var metadata := read.value;
      if metadata.operationId.Some? {
        Finish(a, Ok(None, Ids(metadata.operationId, None, None)));
        return;
      }
      if metadata.expiresAt.value < now {
        Finish(a, Rejected(ExpiredOrUnknown));
        return;
      }
      SetRecord(metadata.(operationId := Some(c.operationId)), c.write);
      Await(a, BeginSaved(c.operationId, c.write));
    }

    method ResumeFinalize(a: Action, c: Choice, identity: Identity, read: Option<Record>)
      requires identity.Known?
      modifies this
      ensures View() == Commit(old(View()), a, AfterFinalizeRead(old(now), a, c, identity, read))
    {
      if read.None? || read.value.action != a || read.value.fingerprint.None? {
        Finish(a, Rejected(ExpiredOrUnknown));
        return;
      }
      var metadata := read.value;
      if metadata.fingerprint != Some(identity.fingerprint) {
        Finish(a, Rejected(DraftChanged));
        return;
      }
      if metadata.operationId.Some? && metadata.operationId.value != identity.operationId {
        Finish(a, Rejected(RecoveryMismatch));
        return;
      }
      if !metadata.status.Unset? {
        if metadata.operationId != Some(identity.operationId) || metadata.claimIntentId != Some(identity.claimIntentId) {
          Finish(a, Rejected(RecoveryMismatch));
          return;
        }
        Finish(a, Ok(Some(metadata.status), Ids(metadata.operationId, metadata.claimIntentId, None)));
        return;
      }
      if !Fresh(metadata, now) {
        Finish(a, Rejected(ExpiredOrUnknown));
        return;
      }
      SetRecord(metadata.(status := FinalizePending, operationId := Some(identity.operationId),
                          claimIntentId := Some(identity.claimIntentId)), c.write);
      Await(a, FinalizeSaved(identity, c.write));
    }

    method ResumeCompleted(a: Action, c: Choice, manualId: string, identity: Identity, read: Option<Record>)
      modifies this
      ensures View() == Commit(old(View()), a, AfterCompletedRead(old(now), old(drafts), a, c, manualId, identity, read))
    {
      if read.None? || read.value.action != a {
        Finish(a, Rejected(ExpiredOrUnknown));
        return;
      }
      var metadata := read.value;
      if metadata.fingerprint.None? {
        Finish(a, Rejected(FingerprintRequired));
        return;
      }
      if metadata.status.Completed? {
        if (metadata.operationId.Some? || metadata.claimIntentId.Some?) && !SameIdentity(metadata, identity) {
          Finish(a, Rejected(RecoveryMismatch));
        } else if metadata.manualId == Some(manualId) {
          Finish(a, Ok(Some(Completed), Ids(None, None, Some(manualId))));
        } else {
          Finish(a, Rejected(CompletionMismatch));
        }
        return;
      }
      var recovery := metadata.status.FinalizePending?;
      if (recovery && !SameIdentity(metadata, identity)) || (!recovery && !CompatibleIdentity(metadata, identity)) {
        Finish(a, Rejected(RecoveryMismatch));
        return;
      }
      if metadata.status.CompletionPending? && metadata.manualId != Some(manualId) {
        Finish(a, Rejected(CompletionMismatch));
        return;
      }
      if !recovery && !metadata.status.CompletionPending? && !Fresh(metadata, now) {
        Finish(a, Rejected(ExpiredOrUnknown));
        return;
      }
      if !Dated(metadata) {
        Finish(a, Rejected(DraftChanged));
        return;
      }
      var pending := PendingOf(metadata, manualId);
      if !metadata.status.CompletionPending? {
        SetRecord(pending, c.write);
        Await(a, PendingSaved(pending, c.write));
      } else {
        Await(a, DraftRead(pending, Lookup(drafts, pending.draftId)));
      }
    }

    method ResumeFinal(a: Action, c: Choice, pending: Record)
      modifies this
      ensures View() == Commit(old(View()), a, SaveFinal(c, pending))
    {
      SetRecord(pending.(status := Completed), c.write);
      Await(a, FinalSaved(pending, c.write));
    }

    method ResumeDraft(a: Action, c: Choice, pending: Record, draft: Option<Draft>)
      modifies this
      ensures View() == Commit(old(View()), a, AfterDraftRead(c, pending, draft))
    {
      if draft.None? || draft.value.updatedAt != pending.draftUpdatedAt {
        ResumeFinal(a, c, pending);
        return;
      }
      var canonical := Canonicalize(draft.value);
      if canonical.None? {
        Finish(a, Rejected(HandoffFailed));
      } else if pending.fingerprint.Some? && !NamesCanonical(pending.fingerprint.value, canonical.value) {
        ResumeFinal(a, c, pending);
      } else {
        Await(a, DraftHashed(pending, canonical.value));
      }
    }

    method RunDelete(a: Action, c: Choice, pending: Record, expected: Canonical)
      modifies this
      ensures View() == Commit(old(View()), a, TransactDelete(Lookup(old(drafts), pending.draftId), c, pending, expected))
    {
      if c.deleteFails {
        Await(a, DraftSettled(pending, true));
        return;
      }
      if pending.draftId !in drafts || drafts[pending.draftId].updatedAt != pending.draftUpdatedAt {
        Await(a, DraftSettled(pending, false));
        return;
      }
      var canonical := Canonicalize(drafts[pending.draftId]);
      if canonical != Some(expected) {
        Await(a, DraftSettled(pending, canonical.None?));
        return;
      }
      drafts := drafts - {pending.draftId};
      Await(a, DraftSettled(pending, false));
    }

    method ResumeRecovery(a: Action, read: Option<Record>)
      modifies this
      ensures View() == Commit(old(View()), a, AfterRecoveryRead(a, read))
    {
      if read.None? || read.value.action != a || read.value.status.Unset?
         || read.value.operationId.None? || read.value.claimIntentId.None? || read.value.fingerprint.None? {
        Finish(a, Rejected(RecoveryNotFound));
        return;
      }
      Finish(a, Ok(Some(read.value.status), IdsOf(read.value)));
    }

    // The reply after the last storage write of an operation.
    method ReplyAfterWrite(a: Action, c: Choice)
      requires var op := View().OpOf(a); op.BeginSaved? || op.FinalizeSaved? || op.FinalSaved?
      modifies this
      ensures View() == Apply(old(View()), Advance(a, c))
    {
      var op := ops[a];
      if !op.write.Stored? || (op.FinalizeSaved? && !op.identity.Known?) {
        Finish(a, Rejected(HandoffFailed));
      } else if op.BeginSaved? {
        Finish(a, Ok(None, Ids(Some(op.operationId), None, None)));
      } else if op.FinalizeSaved? {
        Finish(a, Ok(Some(FinalizePending), Ids(Some(op.identity.operationId), Some(op.identity.claimIntentId), None)));
      } else {
        Finish(a, Ok(Some(Completed), Ids(None, None, op.pending.manualId)));
      }
    }

    // What follows an awaited read.
    method ResumeRead(a: Action, c: Choice)
      requires var op := View().OpOf(a); op.BeginRead? || op.RecoveryRead? || op.FinalizeRead? || op.CompletedRead? || op.DraftRead?
      modifies this
      ensures View() == Apply(old(View()), Advance(a, c))
    {
      var op := ops[a];
      if op.FinalizeRead? && !op.identity.Known? {
        Finish(a, Rejected(RequestRejected));
      } else if c.readFails {
        Finish(a, Rejected(HandoffFailed));
      } else {
        match op {
          case BeginRead(read) => ResumeBegin(a, c, read);
          case RecoveryRead(read) => ResumeRecovery(a, read);
          case FinalizeRead(identity, read) => ResumeFinalize(a, c, identity, read);
          case CompletedRead(manualId, identity, read) => ResumeCompleted(a, c, manualId, identity, read);
          case DraftRead(pending, draft) => ResumeDraft(a, c, pending, draft);
        }
      }
    }

    method Resume(a: Action, c: Choice)
      modifies this
      ensures View() == Apply(old(View()), Advance(a, c))
    {
      var op := if a in ops then ops[a] else Idle;
      match op {
        case Idle => Await(a, Idle);
        case PendingSaved(pending, write) =>
          if write.Stored? { Await(a, DraftRead(pending, Lookup(drafts, pending.draftId))); }
          else { Finish(a, Rejected(HandoffFailed)); }
        case DraftHashed(pending, expected) => RunDelete(a, c, pending, expected);
        case DraftSettled(pending, failed) =>
          if failed { Finish(a, Rejected(HandoffFailed)); } else { ResumeFinal(a, c, pending); }
        case BeginSaved(_, _) => ReplyAfterWrite(a, c);
        case FinalizeSaved(_, _) => ReplyAfterWrite(a, c);
        case FinalSaved(_, _) => ReplyAfterWrite(a, c);
        case _ => ResumeRead(a, c);
      }
    }

    // pruneExpiredHandoffs, up to the list of expired keys and from there on.
    method ListExpired()
      modifies this`doomed
      ensures View() == Apply(old(View()), PruneList)
    {
      if record.Some? && Prunable(record.value, now) { doomed := doomed + 1; }
    }

    method RemoveListed(fails: bool)
      modifies this`doomed, this`record
      ensures View() == Apply(old(View()), PruneRemove(fails))
    {
      if doomed == 0 { return; }
      doomed := doomed - 1;
      if !fails { record := None; }
    }

    // openHandoffTab: store the editor's copy only when nothing was found.
    method LookForRecord()
      modifies this`editor
      ensures View() == Apply(old(View()), EditorLook)
    {
      if !editor.Holding? { return; }
      editor := if record.None? then SawAbsent(editor.copy) else Away;
    }

    method SaveCopy(write: Write)
      modifies this
      ensures View() == Apply(old(View()), EditorSave(write))
    {
      if !editor.SawAbsent? { return; }
      SetRecord(editor.copy, write);
      editor := Away;
    }

    // Any one event: the object keeps the invariants behind the results about runs.
    method Step(e: Event)
      requires ClaimSafety.DeletionInv(View())
      modifies this
      ensures View() == Apply(old(View()), e)
      ensures ClaimSafety.DeletionInv(View())
      ensures old(ClaimAgreement.Inv(View()) && ClaimAgreement.Careful(View(), e))
              ==> ClaimAgreement.Inv(View()) && ClaimAgreement.RecordStep(old(View()), View())
    {
      ghost var before := View();
      Handle(e);
      ClaimSafety.DeletionInvStep(before, e);
      if ClaimAgreement.Inv(before) && ClaimAgreement.Careful(before, e) { ClaimAgreement.InvStep(before, e); }
    }

    method Handle(e: Event)
      modifies this
      ensures View() == Apply(old(View()), e)
    {
      match e {
        case Start(a, m) => Receive(a, m);
        case Advance(a, c) => Resume(a, c);
        case Tick(elapsed) => now := now + elapsed;
        case PutDraft(id, d) => drafts := drafts[id := d];
        case PruneList => ListExpired();
        case PruneRemove(fails) => RemoveListed(fails);
        case EditorFind =>
          if editor.Away? && record.Some? && Recoverable(record.value, now) { editor := Holding(record.value); }
        case EditorLook => LookForRecord();
        case EditorSave(write) => SaveCopy(write);
        case EditorLeave => editor := Away;
        case Crash => ops := map[];
      }
    }
  }
}
