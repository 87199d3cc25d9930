/**
 What each message of the page does when nothing fails, stated over the whole handling of the message: when it is
 accepted, what is stored and answered then, and that nothing changes when it is refused
 (apps/extension/background/cloud-claim.js:256-283,357-475).
 */
module ClaimProgress {
  import opened Basics
  import opened Handoff
  import opened ClaimProtocol
  import opened ClaimReplay

  // The message is handled to its end, `awaits` being enough for it; `drawn` is the identifier begin would draw.
  function Served(w: World, a: Action, m: Message, drawn: string, awaits: nat): World {
    Settle(Apply(Apply(w, Start(a, m)), Advance(a, NO_FAULT.(operationId := drawn))), a, awaits)
  }

  predicate Free(w: World, a: Action) { w.OpOf(a).Idle? }

  // The queue is free again, exactly this was answered, and no draft and nothing of the editor has changed.
  predicate Answered(w: World, v: World, a: Action, record: Option<Record>, reply: Reply) {
    && At(v, a, Idle) && v.now == w.now && v.origin == w.origin && v.editor == w.editor && v.doomed == w.doomed
    && v.drafts == w.drafts && v.record == record && v.replies == w.replies + [reply]
  }

  // ---------- begin ----------

  predicate Beginnable(r: Option<Record>, a: Action) {
    r.Some? && r.value.action == a && r.value.fingerprint.Some? && r.value.expiresAt.Some?
  }

  // A record without an identifier gets the one drawn while it is fresh; one that has an identifier is answered
  // with it whether it is fresh or not; any other is refused.
  lemma BeginIs(w: World, a: Action, drawn: string, awaits: nat)
    requires awaits >= 2 && Free(w, a)
    ensures var v := Served(w, a, BeginMessage, drawn, awaits); var r := w.record;
            if !Beginnable(r, a) || (r.value.operationId.None? && r.value.expiresAt.value < w.now) then
              Answered(w, v, a, r, Rejected(ExpiredOrUnknown))
            else if r.value.operationId.Some? then
              Answered(w, v, a, r, Ok(None, Ids(r.value.operationId, None, None)))
            else
              Answered(w, v, a, Some(r.value.(operationId := Some(drawn))), Ok(None, Ids(Some(drawn), None, None)))
  {
    var w2 := Apply(Apply(w, Start(a, BeginMessage)), Advance(a, NO_FAULT.(operationId := drawn)));
    if At(w2, a, Idle) {
      IdleStays(w2, a, awaits);
    } else {
      IdleStays(Apply(w2, Advance(a, NO_FAULT)), a, awaits - 1);
    }
  }

  // Once begin has answered, asking again at any later time gives the same identifier and changes nothing.
  lemma BeginAgain(w: World, a: Action, drawn: string, elapsed: nat, again: string, awaits: nat)
    requires awaits >= 2 && Free(w, a) && Beginnable(w.record, a) && (w.record.value.operationId.Some? || Fresh(w.record.value, w.now))
    ensures var v := Served(w, a, BeginMessage, drawn, awaits); var later := Apply(v, Tick(elapsed));
            var id := if w.record.value.operationId.Some? then w.record.value.operationId else Some(drawn);
            && v.replies == w.replies + [Ok(None, Ids(id, None, None))] && v.record.Some? && v.record.value.operationId == id
            && Answered(later, Served(later, a, BeginMessage, again, awaits), a, v.record, Ok(None, Ids(id, None, None)))
  {
    BeginIs(w, a, drawn, awaits);
    BeginIs(Apply(Served(w, a, BeginMessage, drawn, awaits), Tick(elapsed)), a, again, awaits);
  }

  // ---------- finalize ----------

  // The record is this one's, of this draft, and no other operation has begun it.
  predicate Finalizes(r: Option<Record>, a: Action, identity: Identity) {
    && identity.Known? && r.Some? && r.value.action == a && r.value.fingerprint == Some(identity.fingerprint)
    && (r.value.operationId.Some? ==> r.value.operationId.value == identity.operationId)
  }

  // A fresh record becomes finalize-pending with exactly the message's identifiers.
  lemma FinalizeStores(w: World, a: Action, identity: Identity, drawn: string, awaits: nat)
    requires awaits >= 2 && Free(w, a) && Finalizes(w.record, a, identity) && w.record.value.status.Unset? && Fresh(w.record.value, w.now)
    ensures Answered(w, Served(w, a, FinalizeMessage(identity), drawn, awaits), a,
                     Some(w.record.value.(status := FinalizePending, operationId := Some(identity.operationId),
                                          claimIntentId := Some(identity.claimIntentId))),
                     Ok(Some(FinalizePending), Ids(Some(identity.operationId), Some(identity.claimIntentId), None)))
  {
    var w2 := Apply(Apply(w, Start(a, FinalizeMessage(identity))), Advance(a, NO_FAULT.(operationId := drawn)));
    IdleStays(Apply(w2, Advance(a, NO_FAULT)), a, awaits - 1);
  }

  // A record that has gone further is left as it is, and answered exactly when the message names its identifiers;
  // so a repeated finalize is answered as the first one was.
  lemma FinalizeRepeats(w: World, a: Action, identity: Identity, drawn: string, awaits: nat)
    requires awaits >= 2 && Free(w, a) && Finalizes(w.record, a, identity) && !w.record.value.status.Unset?
    ensures var r := w.record.value;
            Answered(w, Served(w, a, FinalizeMessage(identity), drawn, awaits), a, w.record,
                     if r.operationId == Some(identity.operationId) && r.claimIntentId == Some(identity.claimIntentId)
                     then Ok(Some(r.status), Ids(r.operationId, r.claimIntentId, None)) else Rejected(RecoveryMismatch))
  {
    IdleStays(Apply(Apply(w, Start(a, FinalizeMessage(identity))), Advance(a, NO_FAULT.(operationId := drawn))), a, awaits);
  }

  function FinalizeRefusal(r: Option<Record>, a: Action, identity: Identity): Code {
    if !identity.Known? then RequestRejected
    else if r.None? || r.value.action != a || r.value.fingerprint.None? then ExpiredOrUnknown
    else if r.value.fingerprint.value != identity.fingerprint then DraftChanged
    else if r.value.operationId.Some? && r.value.operationId.value != identity.operationId then RecoveryMismatch
    else ExpiredOrUnknown
  }

  // Everything else is refused, and nothing changes.
  lemma FinalizeRefuses(w: World, a: Action, identity: Identity, drawn: string, awaits: nat)
    requires awaits >= 2 && Free(w, a) && (!Finalizes(w.record, a, identity) || (w.record.value.status.Unset? && !Fresh(w.record.value, w.now)))
    ensures Answered(w, Served(w, a, FinalizeMessage(identity), drawn, awaits), a, w.record, Rejected(FinalizeRefusal(w.record, a, identity)))
  {
    var w1 := Apply(w, Start(a, FinalizeMessage(identity)));
    var w2 := Apply(w1, Advance(a, NO_FAULT.(operationId := drawn)));
    if !identity.Known? { assert w1.ops[a := Idle] == w1.ops; }
    IdleStays(w2, a, awaits);
  }

  // A finalize is answered Ok in exactly these cases.
  lemma FinalizeOkIff(w: World, a: Action, identity: Identity, drawn: string, awaits: nat)
    requires awaits >= 2 && Free(w, a)
    ensures var v := Served(w, a, FinalizeMessage(identity), drawn, awaits);
            && |v.replies| == |w.replies| + 1
            && (v.replies[|w.replies|].Ok? <==>
                && Finalizes(w.record, a, identity)
                && if w.record.value.status.Unset? then Fresh(w.record.value, w.now)
                   else w.record.value.operationId == Some(identity.operationId) && w.record.value.claimIntentId == Some(identity.claimIntentId))
  {
    if !Finalizes(w.record, a, identity) || (w.record.value.status.Unset? && !Fresh(w.record.value, w.now)) {
      FinalizeRefuses(w, a, identity, drawn, awaits);
    } else if w.record.value.status.Unset? {
      FinalizeStores(w, a, identity, drawn, awaits);
    } else {
      FinalizeRepeats(w, a, identity, drawn, awaits);
    }
  }

  // The same message once more, at any later time: the same answer, and nothing changes.
  lemma FinalizeAgain(w: World, a: Action, identity: Identity, drawn: string, elapsed: nat, awaits: nat)
    requires awaits >= 2 && Free(w, a) && Finalizes(w.record, a, identity) && w.record.value.status.Unset? && Fresh(w.record.value, w.now)
    ensures var v := Served(w, a, FinalizeMessage(identity), drawn, awaits); var later := Apply(v, Tick(elapsed));
            var reply := Ok(Some(FinalizePending), Ids(Some(identity.operationId), Some(identity.claimIntentId), None));
            v.replies == w.replies + [reply] && Answered(later, Served(later, a, FinalizeMessage(identity), drawn, awaits), a, v.record, reply)
  {
    FinalizeStores(w, a, identity, drawn, awaits);
    FinalizeRepeats(Apply(Served(w, a, FinalizeMessage(identity), drawn, awaits), Tick(elapsed)), a, identity, drawn, awaits);
  }

  // ---------- recovery ----------

  // A record that was finalized is answered with its status and identifiers, and any other is not found.
  lemma RecoveryIs(w: World, a: Action, drawn: string, awaits: nat)
    requires awaits >= 2 && Free(w, a)
    ensures var r := w.record;
            Answered(w, Served(w, a, RecoveryMessage, drawn, awaits), a, r,
                     if r.Some? && r.value.action == a && !r.value.status.Unset? && r.value.operationId.Some?
                        && r.value.claimIntentId.Some? && r.value.fingerprint.Some?
                     then Ok(Some(r.value.status), Ids(r.value.operationId, r.value.claimIntentId, r.value.manualId))
                     else Rejected(RecoveryNotFound))
  {
    IdleStays(Apply(Apply(w, Start(a, RecoveryMessage)), Advance(a, NO_FAULT.(operationId := drawn))), a, awaits);
  }

  // ---------- completed ----------

  function CompletedRefusal(w: World, a: Action, manualId: string, identity: Identity): Code {
    var r := w.record;
    if |manualId| < 1 || |manualId| > 128 then RequestRejected
    else if r.None? || r.value.action != a then ExpiredOrUnknown
    else if r.value.fingerprint.None? then FingerprintRequired
    else if !(if r.value.status.FinalizePending? then NamesExactly(r.value, identity) else Agrees(r.value, identity))
    then RecoveryMismatch
    else if r.value.status.CompletionPending? then CompletionMismatch
    else ExpiredOrUnknown
  }

  // A record that is not completed, and that this message does not claim, is left as it is.
  lemma CompletedRefuses(w: World, a: Action, manualId: string, identity: Identity)
    requires Free(w, a) && (w.record.Some? ==> !w.record.value.status.Completed?)
    requires w.record.None? || w.record.value.action != a || !Claims(w.record.value, w.now, manualId, identity)
    ensures Answered(w, Handle(w, a, manualId, identity), a, w.record, Rejected(CompletedRefusal(w, a, manualId, identity)))
  {
    var w1 := Apply(w, Start(a, CompletedMessage(manualId, identity)));
    if 1 <= |manualId| <= 128 {
      RefusalEffect(w, a, manualId, identity);
      assert w1 == w.(ops := w.ops[a := CompletedRead(manualId, identity, w.record)]);
      IdleStays(Apply(w1, Advance(a, NO_FAULT)), a, 5);
    } else {
      IdleStays(w1, a, 6);
    }
  }

  lemma RefusalEffect(w: World, a: Action, manualId: string, identity: Identity)
    requires (w.record.Some? ==> !w.record.value.status.Completed?) && 1 <= |manualId| <= 128
    requires w.record.None? || w.record.value.action != a || !Claims(w.record.value, w.now, manualId, identity)
    ensures AfterCompletedRead(w.now, w.drafts, a, NO_FAULT, manualId, identity, w.record)
            == Answer(Rejected(CompletedRefusal(w, a, manualId, identity)))
  {
    if w.record.Some? { IdentitiesAre(w.record.value, identity); }
  }

  // A completed record stays as it is, and is answered Ok exactly when the message names its manual and, if it has
  // identifiers, all of them.
  lemma CompletedAgain(w: World, a: Action, manualId: string, identity: Identity)
    requires Free(w, a) && w.record.Some? && w.record.value.action == a && w.record.value.status.Completed? && 1 <= |manualId| <= 128
    ensures var r := w.record.value;
            Answered(w, Handle(w, a, manualId, identity), a, w.record,
                     if r.fingerprint.None? then Rejected(FingerprintRequired)
                     else if (r.operationId.Some? || r.claimIntentId.Some?) && !NamesExactly(r, identity) then Rejected(RecoveryMismatch)
                     else if r.manualId == Some(manualId) then Ok(Some(Completed), Ids(None, None, Some(manualId)))
                     else Rejected(CompletionMismatch))
  {
    IdentitiesAre(w.record.value, identity);
    IdleStays(Apply(Apply(w, Start(a, CompletedMessage(manualId, identity))), Advance(a, NO_FAULT)), a, 5);
  }

  // ---------- when a call fails ----------

  // A read that fails, or a write that reports a failure, is answered as a failure, whether the write took effect or
  // not; and nothing else changes.
  lemma FailureIsReported(w: World, a: Action, c: Choice)
    requires var op := w.OpOf(a);
             || (c.readFails && (op.BeginRead? || op.RecoveryRead? || (op.FinalizeRead? && op.identity.Known?) || op.CompletedRead? || op.DraftRead?))
             || (op.BeginSaved? && !op.write.Stored?) || (op.FinalizeSaved? && !op.write.Stored?)
             || (op.PendingSaved? && !op.write.Stored?) || (op.FinalSaved? && !op.write.Stored?)
             || (op.DraftSettled? && op.failed)
    ensures Answered(w, Apply(w, Advance(a, c)), a, w.record, Rejected(HandoffFailed))
  {
  }

  // A transaction that fails leaves the draft, and is reported by the next step.
  lemma FailedDeleteKeeps(w: World, a: Action, c: Choice)
    requires w.OpOf(a).DraftHashed? && c.deleteFails
    ensures var v := Apply(w, Advance(a, c));
            v.drafts == w.drafts && v.record == w.record && v.replies == w.replies && v.OpOf(a) == DraftSettled(w.OpOf(a).pending, true)
  {
  }

  // ---------- from the first message to the last ----------

  predicate Untouched(w: World, a: Action) {
    && Free(w, a) && w.record.Some? && NewRecord(w.record.value) && w.record.value.action == a && Fresh(w.record.value, w.now)
    && !Undated(w.record.value) && StillTheClaimedDraft(w.drafts, w.record.value)
  }

  lemma Begins(w: World, a: Action, drawn: string, awaits: nat)
    requires awaits >= 2 && Untouched(w, a)
    ensures Begun(w, Served(w, a, BeginMessage, drawn, awaits), a, drawn)
  {
    BeginIs(w, a, drawn, awaits);
  }

  predicate Begun(w: World, v: World, a: Action, drawn: string)
    requires w.record.Some?
  {
    Answered(w, v, a, Some(w.record.value.(operationId := Some(drawn))), Ok(None, Ids(Some(drawn), None, None)))
  }

  predicate Finalized(w: World, v: World, a: Action, r: Record, drawn: string, claimIntentId: string) {
    Answered(w, v, a, Some(r.(status := FinalizePending, operationId := Some(drawn), claimIntentId := Some(claimIntentId))),
             Ok(Some(FinalizePending), Ids(Some(drawn), Some(claimIntentId), None)))
  }

  lemma BegunFinalizes(w: World, v: World, a: Action, drawn: string, claimIntentId: string, awaits: nat)
    requires awaits >= 2 && Untouched(w, a) && Begun(w, v, a, drawn)
    ensures Finalized(v, Served(v, a, FinalizeMessage(Known(drawn, claimIntentId, w.record.value.fingerprint.value)), drawn, awaits), a,
                      w.record.value, drawn, claimIntentId)
  {
    FinalizeStores(v, a, Known(drawn, claimIntentId, w.record.value.fingerprint.value), drawn, awaits);
  }

  lemma {:induction false} SettleMore(w: World, a: Action, m: nat, n: nat)
    ensures Settle(w, a, m + n) == Settle(Settle(w, a, m), a, n)
    decreases m
  {
    if m == 0 {
    } else {
      SettleMore(Apply(w, Advance(a, NO_FAULT)), a, m - 1, n);
    }
  }

  // A completion message, handled likewise.
  function Completing(w: World, a: Action, manualId: string, identity: Identity, awaits: nat): World {
    Settle(Apply(w, Start(a, CompletedMessage(manualId, identity))), a, awaits)
  }

  lemma CompletingIsHandling(w: World, a: Action, manualId: string, identity: Identity, awaits: nat)
    requires awaits >= 6 && At(Handle(w, a, manualId, identity), a, Idle)
    ensures Completing(w, a, manualId, identity, awaits) == Handle(w, a, manualId, identity)
  {
    SettleMore(Apply(w, Start(a, CompletedMessage(manualId, identity))), a, 6, awaits - 6);
    IdleStays(Handle(w, a, manualId, identity), a, awaits - 6);
  }

  lemma FinalizedCompletes(v: World, a: Action, r: Record, drawn: string, claimIntentId: string, manualId: string, awaits: nat)
    requires awaits >= 6 && Free(v, a) && NewRecord(r) && r.action == a && !Undated(r) && StillTheClaimedDraft(v.drafts, r) && 1 <= |manualId| <= 128
    requires v.record == Some(r.(status := FinalizePending, operationId := Some(drawn), claimIntentId := Some(claimIntentId)))
    ensures Ended(v, Completing(v, a, manualId, Known(drawn, claimIntentId, r.fingerprint.value), awaits), a,
                  r.(status := Completed, operationId := Some(drawn), claimIntentId := Some(claimIntentId), manualId := Some(manualId)),
                  v.drafts - {r.draftId}, Ok(Some(Completed), Ids(None, None, Some(manualId))))
  {
    var p := v.record.value;
    assert StillTheClaimedDraft(v.drafts, p) && !Blocked(v.drafts, p);
    ReplayCompletes(v, a, manualId, Known(drawn, claimIntentId, r.fingerprint.value));
    CompletingIsHandling(v, a, manualId, Known(drawn, claimIntentId, r.fingerprint.value), awaits);
  }

  // The record is completed with these identifiers, the draft is gone, and each message was answered.
  ghost predicate HandedOver(w: World, v: World, drawn: string, claimIntentId: string, manualId: string)
    requires w.record.Some?
  {
    var r := w.record.value;
    && v.record == Some(r.(status := Completed, operationId := Some(drawn), claimIntentId := Some(claimIntentId), manualId := Some(manualId)))
    && v.drafts == w.drafts - {r.draftId}
    && v.replies == w.replies + [Ok(None, Ids(Some(drawn), None, None)),
                                 Ok(Some(FinalizePending), Ids(Some(drawn), Some(claimIntentId), None)),
                                 Ok(Some(Completed), Ids(None, None, Some(manualId)))]
  }

  // A new record of an unchanged draft: begin, finalize with the identifier begin gave, and completed hand the draft
  // over and delete it here.
  lemma HandsOver(w: World, w1: World, w2: World, a: Action, drawn: string, claimIntentId: string, manualId: string, awaits: nat)
    requires awaits >= 6 && Untouched(w, a) && 1 <= |manualId| <= 128
    requires w1 == Served(w, a, BeginMessage, drawn, awaits)
    requires w2 == Served(w1, a, FinalizeMessage(Known(drawn, claimIntentId, w.record.value.fingerprint.value)), drawn, awaits)
    ensures var identity := Known(drawn, claimIntentId, w.record.value.fingerprint.value);
            HandedOver(w, Completing(w2, a, manualId, identity, awaits), drawn, claimIntentId, manualId)
  {
    Begins(w, a, drawn, awaits);
    BegunFinalizes(w, w1, a, drawn, claimIntentId, awaits);
    Completes(w, w1, w2, a, drawn, claimIntentId, manualId, awaits);
  }

  lemma Completes(w: World, w1: World, w2: World, a: Action, drawn: string, claimIntentId: string, manualId: string, awaits: nat)
    requires awaits >= 6 && Untouched(w, a) && 1 <= |manualId| <= 128
    requires Begun(w, w1, a, drawn) && Finalized(w1, w2, a, w.record.value, drawn, claimIntentId)
    ensures HandedOver(w, Completing(w2, a, manualId, Known(drawn, claimIntentId, w.record.value.fingerprint.value), awaits),
                       drawn, claimIntentId, manualId)
  {
    FinalizedCompletes(w2, a, w.record.value, drawn, claimIntentId, manualId, awaits);
  }

  // ---------- the editor ----------

  // The editor takes up a record exactly when it is pending with both identifiers, or untouched and fresh.
  lemma EditorFindsIff(w: World)
    requires w.editor.Away?
    ensures var v := Apply(w, EditorFind);
            && v == w.(editor := v.editor)
            && (v.editor.Holding? <==>
                && w.record.Some? && w.record.value.fingerprint.Some?
                && match w.record.value.status
                   case Unset => w.record.value.expiresAt.Some? && w.now <= w.record.value.expiresAt.value
                   case Completed => false
                   case _ => w.record.value.operationId.Some? && w.record.value.claimIntentId.Some?)
            && (v.editor.Holding? ==> Some(v.editor.copy) == w.record)
  {
  }

  // It stores its copy exactly when no record is there.
  lemma EditorStores(w: World)
    requires w.editor.Holding?
    ensures var v := Apply(Apply(w, EditorLook), EditorSave(Stored));
            v.editor.Away? && v.record == (if w.record.None? then Some(w.editor.copy) else w.record)
            && v.drafts == w.drafts && v.ops == w.ops && v.replies == w.replies
  {
  }
}
