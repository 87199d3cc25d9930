/**
 Handling "completed" from any state, such as the ones a crash can leave.
 */
module ClaimReplay {
  import opened Basics
  import opened Handoff
  import opened ClaimProtocol
  import opened ClaimAgreement

  const NO_FAULT := Choice(false, Stored, "", false)

  // The operation of one queue runs on without a failure.
  function Settle(w: World, a: Action, n: nat): World
    decreases n
  {
    if n == 0 then w else Settle(Apply(w, Advance(a, NO_FAULT)), a, n - 1)
  }

  // One "completed" message handled to its end, at most six awaits after its start.
  function Handle(w: World, a: Action, manualId: string, identity: Identity): World {
    Settle(Apply(w, Start(a, CompletedMessage(manualId, identity))), a, 6)
  }

  // The two records no retry can complete: one without an update time, and one whose draft
  // is unchanged by its time stamp but no longer has a canonical form.
  predicate Undated(p: Record) { p.draftUpdatedAt.None? || p.draftUpdatedAt.value == "" }

  predicate Blocked(drafts: map<string, Draft>, p: Record) {
    Undated(p) ||
    (&& p.draftId in drafts
     && drafts[p.draftId].updatedAt == p.draftUpdatedAt
     && Canonicalize(drafts[p.draftId]).None?)
  }

  predicate StillTheClaimedDraft(drafts: map<string, Draft>, p: Record) {
    && p.fingerprint.Some? && p.draftId in drafts && drafts[p.draftId].updatedAt == p.draftUpdatedAt
    && var c := Canonicalize(drafts[p.draftId]);
       c.Some? && p.fingerprint.value in {Sha256(FullText(c.value)), Sha256(ContentText(c.value.content))}
  }

  // All the identifiers of the record, and nothing else; or, more loosely, nothing that contradicts them.
  predicate NamesExactly(p: Record, identity: Identity) {
    && p.operationId.Some? && p.claimIntentId.Some? && p.fingerprint.Some?
    && identity == Known(p.operationId.value, p.claimIntentId.value, p.fingerprint.value)
  }

  predicate Agrees(p: Record, identity: Identity) {
    match identity
    case Blank => true
    case Broken => false
    case Known(operationId, claimIntentId, fingerprint) =>
      p.operationId in {None, Some(operationId)} && p.claimIntentId in {None, Some(claimIntentId)} && p.fingerprint == Some(fingerprint)
  }

  lemma IdentitiesAre(p: Record, identity: Identity)
    ensures NamesExactly(p, identity) == SameIdentity(p, identity) && Agrees(p, identity) == CompatibleIdentity(p, identity)
  {
  }

  // The message names a record that is not completed: a pending one at any time, an untouched one while it is fresh.
  predicate Claims(p: Record, now: int, manualId: string, identity: Identity) {
    && 1 <= |manualId| <= 128 && p.fingerprint.Some?
    && match p.status
       case Unset => Agrees(p, identity) && Fresh(p, now)
       case FinalizePending => NamesExactly(p, identity)
       case CompletionPending => Agrees(p, identity) && p.manualId == Some(manualId)
       case Completed => false
  }

  // No manual is recorded before the first completion message.
  predicate Repeats(p: Record, now: int, manualId: string, identity: Identity) {
    Claims(p, now, manualId, identity) && (!p.status.CompletionPending? ==> p.manualId.None?)
  }

  predicate At(w: World, a: Action, op: Op) { a in w.ops && w.ops[a] == op }

  predicate Ended(w: World, v: World, a: Action, record: Record, drafts: map<string, Draft>, reply: Reply) {
    && At(v, a, Idle) && v.now == w.now && v.origin == w.origin && v.editor == w.editor && v.doomed == w.doomed
    && v.record == Some(record) && v.drafts == drafts && v.replies == w.replies + [reply]
  }

  lemma {:induction false} IdleStays(w: World, a: Action, n: nat)
    requires At(w, a, Idle)
    ensures Settle(w, a, n) == w
    decreases n
  {
    if n == 0 {
    } else {
      assert w.ops[a := Idle] == w.ops;
      assert Apply(w, Advance(a, NO_FAULT)) == w;
      IdleStays(w, a, n - 1);
    }
  }

  lemma {:induction false} FinishSaved(w: World, a: Action, p: Record, n: nat)
    requires At(w, a, FinalSaved(p, Stored)) && w.record.Some? && n >= 1
    ensures Ended(w, Settle(w, a, n), a, w.record.value, w.drafts, Ok(Some(Completed), Ids(None, None, p.manualId)))
  {
    IdleStays(Apply(w, Advance(a, NO_FAULT)), a, n - 1);
  }

  lemma {:induction false} FinishSettled(w: World, a: Action, p: Record, n: nat)
    requires At(w, a, DraftSettled(p, false)) && n >= 2
    ensures Ended(w, Settle(w, a, n), a, p.(status := Completed), w.drafts, Ok(Some(Completed), Ids(None, None, p.manualId)))
  {
    FinishSaved(Apply(w, Advance(a, NO_FAULT)), a, p, n - 1);
  }

  function AfterDelete(drafts: map<string, Draft>, p: Record): map<string, Draft> {
    if StillTheClaimedDraft(drafts, p) then drafts - {p.draftId} else drafts
  }

  predicate Reading(w: World, a: Action, p: Record) {
    At(w, a, DraftRead(p, Lookup(w.drafts, p.draftId))) && w.record == Some(p) && p.fingerprint.Some? && Dated(p)
  }

  lemma {:induction false} FinishBlocked(w: World, a: Action, p: Record, n: nat)
    requires Reading(w, a, p) && n >= 1 && Blocked(w.drafts, p)
    ensures Ended(w, Settle(w, a, n), a, p, w.drafts, Rejected(HandoffFailed))
  {
    IdleStays(Apply(w, Advance(a, NO_FAULT)), a, n - 1);
  }

  lemma {:induction false} FinishHashed(w: World, a: Action, p: Record, expected: Canonical, n: nat)
    requires At(w, a, DraftHashed(p, expected)) && n >= 3
    requires p.draftId in w.drafts && w.drafts[p.draftId].updatedAt == p.draftUpdatedAt
    requires Canonicalize(w.drafts[p.draftId]) == Some(expected)
    ensures Ended(w, Settle(w, a, n), a, p.(status := Completed), w.drafts - {p.draftId}, Ok(Some(Completed), Ids(None, None, p.manualId)))
  {
    var v := Commit(w, a, Effect(NoPut, Some(p.draftId), DraftSettled(p, false), None));
    assert Apply(w, Advance(a, NO_FAULT)) == v;
    FinishSettled(v, a, p, n - 1);
  }

  lemma {:induction false} FinishClaimed(w: World, a: Action, p: Record, n: nat)
    requires Reading(w, a, p) && n >= 4 && !Blocked(w.drafts, p) && StillTheClaimedDraft(w.drafts, p)
    ensures Ended(w, Settle(w, a, n), a, p.(status := Completed), w.drafts - {p.draftId}, Ok(Some(Completed), Ids(None, None, p.manualId)))
  {
    var w1 := Apply(w, Advance(a, NO_FAULT));
    var expected := Canonicalize(w.drafts[p.draftId]).value;
    assert At(w1, a, DraftHashed(p, expected)) && w1.drafts == w.drafts;
    FinishHashed(w1, a, p, expected, n - 1);
  }

  lemma {:induction false} FinishChanged(w: World, a: Action, p: Record, n: nat)
    requires Reading(w, a, p) && n >= 2 && !Blocked(w.drafts, p) && !StillTheClaimedDraft(w.drafts, p)
    ensures Ended(w, Settle(w, a, n), a, p.(status := Completed), w.drafts, Ok(Some(Completed), Ids(None, None, p.manualId)))
  {
    FinishSaved(Apply(w, Advance(a, NO_FAULT)), a, p, n - 1);
  }

  lemma {:induction false} FinishDraftRead(w: World, a: Action, p: Record, n: nat)
    requires Reading(w, a, p) && n >= 4
    ensures var v := Settle(w, a, n);
            if Blocked(w.drafts, p) then Ended(w, v, a, p, w.drafts, Rejected(HandoffFailed))
            else Ended(w, v, a, p.(status := Completed), AfterDelete(w.drafts, p), Ok(Some(Completed), Ids(None, None, p.manualId)))
  {
    if Blocked(w.drafts, p) {
      FinishBlocked(w, a, p, n);
    } else if StillTheClaimedDraft(w.drafts, p) {
      FinishClaimed(w, a, p, n);
    } else {
      FinishChanged(w, a, p, n);
    }
  }

  // A retry without further failure completes the handoff, deletes the draft exactly when it is
  // still the claimed one, and needs no freshness: it succeeds if and only if it is not blocked,
  // and a blocked retry leaves the record pending.
  lemma ReplayCompletes(w: World, a: Action, manualId: string, identity: Identity)
    requires w.OpOf(a).Idle? && w.record.Some? && w.record.value.action == a && Repeats(w.record.value, w.now, manualId, identity)
    ensures var p := w.record.value; var v := Handle(w, a, manualId, identity);
            && (Blocked(w.drafts, p) ==>
                  Ended(w, v, a, if Undated(p) then p else p.(status := CompletionPending, manualId := Some(manualId)), w.drafts,
                        Rejected(if Undated(p) then DraftChanged else HandoffFailed)))
            && (!Blocked(w.drafts, p) ==>
                  Ended(w, v, a, p.(status := Completed, manualId := Some(manualId)), AfterDelete(w.drafts, p),
                        Ok(Some(Completed), Ids(None, None, Some(manualId)))))
  {
    var p := w.record.value;
    if !Dated(p) {
      ReplayUndated(w, a, manualId, identity);
    } else if p.status.CompletionPending? {
      ReplayPending(w, a, manualId, identity);
    } else {
      ReplayFinalized(w, a, manualId, identity);
    }
  }

  predicate Replaying(w: World, a: Action, manualId: string, identity: Identity) {
    w.OpOf(a).Idle? && w.record.Some? && w.record.value.action == a && Repeats(w.record.value, w.now, manualId, identity)
  }

  lemma ReplayUndated(w: World, a: Action, manualId: string, identity: Identity)
    requires Replaying(w, a, manualId, identity) && !Dated(w.record.value)
    ensures Ended(w, Handle(w, a, manualId, identity), a, w.record.value, w.drafts, Rejected(DraftChanged))
  {
    var w1 := Apply(w, Start(a, CompletedMessage(manualId, identity)));
    IdleStays(Apply(w1, Advance(a, NO_FAULT)), a, 5);
  }

  lemma ReplayPending(w: World, a: Action, manualId: string, identity: Identity)
    requires Replaying(w, a, manualId, identity) && Dated(w.record.value) && w.record.value.status.CompletionPending?
    ensures var p := w.record.value; var v := Handle(w, a, manualId, identity);
            if Blocked(w.drafts, p) then Ended(w, v, a, PendingOf(p, manualId), w.drafts, Rejected(HandoffFailed))
            else Ended(w, v, a, p.(status := Completed, manualId := Some(manualId)), AfterDelete(w.drafts, p),
                       Ok(Some(Completed), Ids(None, None, Some(manualId))))
  {
    var p := w.record.value;
    assert PendingOf(p, manualId) == p;
    var w1 := Apply(w, Start(a, CompletedMessage(manualId, identity)));
    FinishDraftRead(Apply(w1, Advance(a, NO_FAULT)), a, p, 5);
  }

  lemma ReplayFinalized(w: World, a: Action, manualId: string, identity: Identity)
    requires Replaying(w, a, manualId, identity) && Dated(w.record.value) && !w.record.value.status.CompletionPending?
    ensures var p := w.record.value; var v := Handle(w, a, manualId, identity);
            if Blocked(w.drafts, p) then Ended(w, v, a, PendingOf(p, manualId), w.drafts, Rejected(HandoffFailed))
            else Ended(w, v, a, p.(status := Completed, manualId := Some(manualId)), AfterDelete(w.drafts, p),
                       Ok(Some(Completed), Ids(None, None, Some(manualId))))
  {
    var w3 := ReplaySaves(w, a, manualId, identity);
    SameDraft(w.drafts, w.record.value, manualId);
    FinishDraftRead(w3, a, PendingOf(w.record.value, manualId), 4);
  }

  lemma SameDraft(drafts: map<string, Draft>, p: Record, manualId: string)
    ensures Blocked(drafts, PendingOf(p, manualId)) == Blocked(drafts, p)
    ensures AfterDelete(drafts, PendingOf(p, manualId)) == AfterDelete(drafts, p)
  {
  }

  lemma PendingIsRead(w: World, a: Action, p: Record)
    requires At(w, a, PendingSaved(p, Stored)) && w.record == Some(p) && p.fingerprint.Some? && Dated(p)
    ensures var v := Apply(w, Advance(a, NO_FAULT));
            && Reading(v, a, p) && v.drafts == w.drafts && v.replies == w.replies
            && v.now == w.now && v.origin == w.origin && v.editor == w.editor && v.doomed == w.doomed
  {
  }

  // The record becomes completion-pending.
  lemma ReplayStarts(w: World, a: Action, manualId: string, identity: Identity) returns (w2: World)
    requires Replaying(w, a, manualId, identity) && Dated(w.record.value) && !w.record.value.status.CompletionPending?
    ensures Handle(w, a, manualId, identity) == Settle(w2, a, 5)
    ensures var pending := PendingOf(w.record.value, manualId);
            w2.record == Some(pending) && At(w2, a, PendingSaved(pending, Stored))
    ensures w2.drafts == w.drafts && w2.replies == w.replies
    ensures w2.now == w.now && w2.origin == w.origin && w2.editor == w.editor && w2.doomed == w.doomed
  {
    var w1 := Apply(w, Start(a, CompletedMessage(manualId, identity)));
    assert w1 == w.(ops := w.ops[a := CompletedRead(manualId, identity, w.record)]);
    CompletedEffect(w1.now, w1.drafts, a, manualId, identity, w.record.value);
    w2 := Commit(w1, a, Effect(Put(PendingOf(w.record.value, manualId), Stored), None, PendingSaved(PendingOf(w.record.value, manualId), Stored), None));
    assert Apply(w1, Advance(a, NO_FAULT)) == w2;
    assert Settle(w1, a, 6) == Settle(w2, a, 5);
  }

  // What the code after the read does then: it stores the record as completion-pending.
  lemma CompletedEffect(now: int, drafts: map<string, Draft>, a: Action, manualId: string, identity: Identity, p: Record)
    requires p.action == a && Repeats(p, now, manualId, identity) && Dated(p) && !p.status.CompletionPending?
    ensures var pending := PendingOf(p, manualId);
            AfterCompletedRead(now, drafts, a, NO_FAULT, manualId, identity, Some(p))
            == Effect(Put(pending, Stored), None, PendingSaved(pending, Stored), None)
  {
    IdentitiesAre(p, identity);
  }

  // Its draft is read next.
  lemma ReplaySaves(w: World, a: Action, manualId: string, identity: Identity) returns (w3: World)
    requires Replaying(w, a, manualId, identity) && Dated(w.record.value) && !w.record.value.status.CompletionPending?
    ensures Handle(w, a, manualId, identity) == Settle(w3, a, 4)
    ensures Reading(w3, a, PendingOf(w.record.value, manualId)) && w3.drafts == w.drafts && w3.replies == w.replies
    ensures w3.now == w.now && w3.origin == w.origin && w3.editor == w.editor && w3.doomed == w.doomed
  {
    var w2 := ReplayStarts(w, a, manualId, identity);
    w3 := Apply(w2, Advance(a, NO_FAULT));
    PendingIsRead(w2, a, PendingOf(w.record.value, manualId));
    assert Settle(w2, a, 5) == Settle(w3, a, 4);
  }

  // Repeating the message once more gives the same reply and changes nothing, exactly when the
  // record carries no claim identity or the message repeats it.
  lemma RepeatIsIdempotent(w: World, a: Action, manualId: string, identity: Identity)
    requires w.OpOf(a).Idle? && w.record.Some? && 1 <= |manualId| <= 128
    requires var r := w.record.value; r.action == a && r.status.Completed? && r.fingerprint.Some? && r.manualId == Some(manualId)
    ensures var r := w.record.value; var v := Handle(w, a, manualId, identity);
            && v.record == w.record && v.drafts == w.drafts && |v.replies| == |w.replies| + 1
            && (v.replies[|w.replies|] == Ok(Some(Completed), Ids(None, None, Some(manualId))) <==>
                (r.operationId.None? && r.claimIntentId.None?) || NamesExactly(r, identity))
  {
    var w1 := Apply(w, Start(a, CompletedMessage(manualId, identity)));
    var w2 := Apply(w1, Advance(a, NO_FAULT));
    IdleStays(w2, a, 5);
  }
}
