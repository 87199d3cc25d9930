/**
 The two kinds of run in which the agreement of ClaimAgreement is lost, each with the exact
 condition under which there is one.
 */
module ClaimFaults {
  import opened Basics
  import opened Handoff
  import opened ClaimProtocol
  import opened ClaimAgreement
  import opened ClaimReplay

  // What a run may do besides the careful steps: let every prune read the clock at t, or put
  // back a pending copy while every prune keeps away from the expiry.
  datatype Rule = PruneAt(t: int) | PutBackPending

  predicate Allowed(rule: Rule, w: World, e: Event) {
    match rule
    case PruneAt(t) =>
      (e.PruneList? ==> w.now == t) && (e.EditorSave? && w.editor.SawAbsent? ==> !IsPending(w.editor.copy))
    case PutBackPending => e.PruneList? ==> w.origin.expiresAt != Some(w.now)
  }

  predicate Obeys(rule: Rule, w: World, events: seq<Event>)
    decreases |events|
  {
    events == [] || (Allowed(rule, w, events[0]) && Obeys(rule, Apply(w, events[0]), events[1..]))
  }

  lemma {:induction false} RunConcat(rule: Rule, w: World, xs: seq<Event>, ys: seq<Event>)
    ensures Run(w, xs + ys) == Run(Run(w, xs), ys)
    ensures Obeys(rule, w, xs + ys) <==> Obeys(rule, w, xs) && Obeys(rule, Run(w, xs), ys)
    decreases |xs|
  {
    if xs == [] {
      assert xs + ys == ys;
    } else {
      assert (xs + ys)[1..] == xs[1..] + ys;
      RunConcat(rule, Apply(w, xs[0]), xs[1..], ys);
    }
  }

  function Snoc(events: seq<Event>, e: Event): seq<Event> { events + [e] }

  lemma {:induction false} RunSnoc(rule: Rule, w: World, events: seq<Event>, e: Event)
    requires Obeys(rule, w, events) && Allowed(rule, Run(w, events), e)
    ensures Run(w, Snoc(events, e)) == Apply(Run(w, events), e) && Obeys(rule, w, Snoc(events, e))
  {
    RunConcat(rule, w, events, [e]);
  }

  // ---------- no manual without a fingerprint, an update time and a fresh start ----------

  predicate Claimable(origin: Record, now: int) { origin.fingerprint.Some? && Dated(origin) && Fresh(origin, now) }

  // A record that cannot become completion-pending any more.
  predicate Unclaimed(origin: Record, r: Record) {
    && SameHandoff(r, origin) && r.manualId.None?
    && (r.status.Unset? || (r.status.FinalizePending? && origin.fingerprint.Some? && !Dated(origin)))
  }

  predicate ReadUnclaimed(origin: Record, read: Option<Record>) { read.Some? ==> Unclaimed(origin, read.value) }

  predicate OpUnclaimed(origin: Record, op: Op) {
    match op
    case Idle => true
    case BeginRead(read) => ReadUnclaimed(origin, read)
    case RecoveryRead(read) => ReadUnclaimed(origin, read)
    case FinalizeRead(_, read) => ReadUnclaimed(origin, read)
    case CompletedRead(_, _, read) => ReadUnclaimed(origin, read)
    case BeginSaved(_, _) => true
    case FinalizeSaved(_, _) => true
    case _ => false
  }

  predicate Manualless(r: Reply) { r.Ok? ==> r.ids.manualId.None? }

  ghost predicate NoManual(w: World) {
    && !Claimable(w.origin, w.now)
    && ReadUnclaimed(w.origin, w.record)
    && (!w.editor.Away? ==> Unclaimed(w.origin, w.editor.copy))
    && (forall a | a in w.ops :: OpUnclaimed(w.origin, w.ops[a]))
    && (forall r | r in w.replies :: Manualless(r))
  }

  lemma EffectUnclaimed(origin: Record, op: Op, now: int, drafts: map<string, Draft>, a: Action, c: Choice)
    requires !Claimable(origin, now) && OpUnclaimed(origin, op)
    ensures var e := AdvanceOp(op, now, drafts, a, c);
            && (e.put.Put? ==> Unclaimed(origin, e.put.record)) && OpUnclaimed(origin, e.next)
            && (e.reply.Some? ==> Manualless(e.reply.value))
  {
  }

  lemma CommitUnclaimed(w: World, a: Action, e: Effect)
    requires NoManual(w) && (e.put.Put? ==> Unclaimed(w.origin, e.put.record)) && OpUnclaimed(w.origin, e.next)
    requires e.reply.Some? ==> Manualless(e.reply.value)
    ensures NoManual(Commit(w, a, e))
  {
  }

  lemma NoManualStep(w: World, e: Event)
    requires NoManual(w)
    ensures NoManual(Apply(w, e)) && Apply(w, e).origin == w.origin
  {
    match e
    case Start(a, m) => if w.OpOf(a).Idle? { CommitUnclaimed(w, a, StartOp(w.record, m)); }
    case Advance(a, c) =>
      EffectUnclaimed(w.origin, w.OpOf(a), w.now, w.drafts, a, c);
      CommitUnclaimed(w, a, AdvanceOp(w.OpOf(a), w.now, w.drafts, a, c));
    case _ =>
  }

  lemma {:induction false} NoManualRun(w: World, events: seq<Event>)
    requires NoManual(w)
    ensures NoManual(Run(w, events))
    decreases |events|
  {
    if events == [] {
    } else {
      NoManualStep(w, events[0]);
      NoManualRun(Apply(w, events[0]), events[1..]);
    }
  }

  predicate TwoManuals(log: seq<Reply>, m: string, n: string) {
    && (exists r | r in log :: r.Ok? && r.ids.manualId == Some(m))
    && (exists r | r in log :: r.Ok? && r.ids.manualId == Some(n))
  }

  // The run obeys the rule and ends with two manuals confirmed for the one handoff.
  predicate TwiceConfirmed(rule: Rule, w: World, events: seq<Event>, m: string, n: string) {
    Obeys(rule, w, events) && TwoManuals(Run(w, events).replies, m, n)
  }

  lemma NeverConfirmed(rule: Rule, w: World, events: seq<Event>, m: string, n: string)
    requires NewRecord(w.origin) && w == Init(w.origin, w.now, w.drafts) && !Claimable(w.origin, w.now)
    ensures !TwiceConfirmed(rule, w, events, m, n)
  {
    NoManualRun(w, events);
  }

  // ---------- the runs ----------

  function HandleEvents(a: Action, manualId: string, identity: Identity): seq<Event> {
    [Start(a, CompletedMessage(manualId, identity))] + seq(6, _ => Advance(a, NO_FAULT))
  }

  lemma {:induction false} RunSettles(rule: Rule, w: World, a: Action, n: nat)
    ensures var events := seq(n, _ => Advance(a, NO_FAULT)); Run(w, events) == Settle(w, a, n) && Obeys(rule, w, events)
    decreases n
  {
    if n == 0 {
    } else {
      assert seq(n, _ => Advance(a, NO_FAULT))[1..] == seq(n - 1, _ => Advance(a, NO_FAULT));
      RunSettles(rule, Apply(w, Advance(a, NO_FAULT)), a, n - 1);
    }
  }

  lemma {:induction false} RunHandles(rule: Rule, w: World, a: Action, manualId: string, identity: Identity)
    ensures Run(w, HandleEvents(a, manualId, identity)) == Handle(w, a, manualId, identity)
    ensures Obeys(rule, w, HandleEvents(a, manualId, identity))
  {
    var start := Start(a, CompletedMessage(manualId, identity));
    RunSettles(rule, Apply(w, start), a, 6);
    assert HandleEvents(a, manualId, identity)[1..] == seq(6, _ => Advance(a, NO_FAULT));
  }

  predicate ReadyToConfirm(w: World, a: Action, identity: Identity) {
    && w.OpOf(a).Idle? && w.record.Some? && w.record.value.action == a && w.record.value.status.FinalizePending?
    && w.record.value.manualId.None? && SameIdentity(w.record.value, identity)
  }

  lemma Confirm(rule: Rule, w: World, before: seq<Event>, a: Action, manualId: string, identity: Identity) returns (events: seq<Event>)
    requires Obeys(rule, w, before) && ReadyToConfirm(Run(w, before), a, identity) && 1 <= |manualId| <= 128
    requires var u := Run(w, before); !Blocked(u.drafts, u.record.value)
    ensures Obeys(rule, w, events)
    ensures var u := Run(w, before); var v := Run(w, events); var p := u.record.value;
            Ended(u, v, a, p.(status := Completed, manualId := Some(manualId)), AfterDelete(u.drafts, p),
                  Ok(Some(Completed), Ids(None, None, Some(manualId))))
  {
    ReplayCompletes(Run(w, before), a, manualId, identity);
    RunHandles(rule, Run(w, before), a, manualId, identity);
    events := before + HandleEvents(a, manualId, identity);
    RunConcat(rule, w, before, HandleEvents(a, manualId, identity));
  }

  // Nothing but the record and the editor has changed.
  predicate Quiet(u: World, v: World) {
    && v.origin == u.origin && v.now == u.now && v.drafts == u.drafts && v.ops == u.ops
    && v.doomed == u.doomed && v.replies == u.replies
  }

  // The editor sees no record and stores its copy.
  lemma Save(rule: Rule, w: World, before: seq<Event>) returns (events: seq<Event>)
    requires Obeys(rule, w, before)
    requires var u := Run(w, before); u.editor.Holding? && u.record.None? && (rule.PruneAt? ==> !IsPending(u.editor.copy))
    ensures Obeys(rule, w, events)
    ensures var u := Run(w, before); var v := Run(w, events);
            Quiet(u, v) && v.record == Some(u.editor.copy) && v.editor.Away?
  {
    RunSnoc(rule, w, before, EditorLook);
    events := Snoc(before, EditorLook);
    RunSnoc(rule, w, events, EditorSave(Stored));
    events := Snoc(events, EditorSave(Stored));
  }

  // The draft is saved anew, so its update time is no longer the recorded one.
  lemma Unblock(rule: Rule, w: World, before: seq<Event>, p: Record) returns (events: seq<Event>)
    requires Obeys(rule, w, before) && Dated(p)
    ensures Obeys(rule, w, events)
    ensures var u := Run(w, before); var v := Run(w, events); v == u.(drafts := v.drafts) && !Blocked(v.drafts, p)
  {
    var e := PutDraft(p.draftId, Draft(None, None, None, None, None, None, ""));
    RunSnoc(rule, w, before, e);
    events := Snoc(before, e);
  }

  // The page announces its claim and is answered.
  lemma Announce(rule: Rule, w: World, before: seq<Event>, identity: Identity) returns (events: seq<Event>)
    requires Obeys(rule, w, before) && identity.Known?
    requires var u := Run(w, before);
             && u.record.Some? && NewRecord(u.record.value) && u.OpOf(u.record.value.action).Idle?
             && Fresh(u.record.value, u.now) && u.record.value.fingerprint == Some(identity.fingerprint)
    ensures Obeys(rule, w, events)
    ensures var u := Run(w, before); var v := Run(w, events);
            && v.record == Some(Announcement(u.record.value, identity)) && ReadyToConfirm(v, u.record.value.action, identity)
            && v.origin == u.origin && v.now == u.now && v.drafts == u.drafts && v.doomed == u.doomed && v.editor == u.editor
            && u.replies < v.replies
  {
    var a := Run(w, before).record.value.action;
    Announcing(Run(w, before), a, identity);
    RunSnoc(rule, w, before, Start(a, FinalizeMessage(identity)));
    events := Snoc(before, Start(a, FinalizeMessage(identity)));
    RunSnoc(rule, w, events, Advance(a, NO_FAULT));
    events := Snoc(events, Advance(a, NO_FAULT));
    RunSnoc(rule, w, events, Advance(a, NO_FAULT));
    events := Snoc(events, Advance(a, NO_FAULT));
  }

  function Announcement(r: Record, identity: Identity): Record
    requires identity.Known?
  {
    r.(status := FinalizePending, operationId := Some(identity.operationId), claimIntentId := Some(identity.claimIntentId))
  }

  lemma Announcing(w: World, a: Action, identity: Identity)
    requires w.OpOf(a).Idle? && w.record.Some? && NewRecord(w.record.value) && w.record.value.action == a
    requires Fresh(w.record.value, w.now) && identity.Known? && w.record.value.fingerprint == Some(identity.fingerprint)
    ensures var v := Apply(Apply(w, Start(a, FinalizeMessage(identity))), Advance(a, NO_FAULT));
            && v.record == Some(Announcement(w.record.value, identity)) && v.drafts == w.drafts && v.now == w.now
            && v.origin == w.origin && v.doomed == w.doomed && v.editor == w.editor
            && At(v, a, FinalizeSaved(identity, Stored))
  {
  }

  // The log has grown, and its last reply confirms the manual.
  predicate Logged(before: seq<Reply>, log: seq<Reply>, manualId: string) {
    before < log && log[|log| - 1] == Ok(Some(Completed), Ids(None, None, Some(manualId)))
  }

  lemma BothLogged(first: seq<Reply>, log: seq<Reply>, m: string, n: string)
    requires first != [] && first[|first| - 1] == Ok(Some(Completed), Ids(None, None, Some(m))) && Logged(first, log, n)
    ensures TwoManuals(log, m, n)
  {
    assert log[|first| - 1] in log && log[|log| - 1] in log;
  }

  // Announced on an unblocked record, the claim is confirmed with any manual.
  lemma AnnounceAndConfirm(rule: Rule, w: World, before: seq<Event>, manualId: string, identity: Identity) returns (events: seq<Event>)
    requires Obeys(rule, w, before) && identity.Known? && 1 <= |manualId| <= 128
    requires var u := Run(w, before);
             && u.record.Some? && NewRecord(u.record.value) && u.OpOf(u.record.value.action).Idle?
             && Fresh(u.record.value, u.now) && u.record.value.fingerprint == Some(identity.fingerprint) && Dated(u.record.value)
    ensures Obeys(rule, w, events)
    ensures var u := Run(w, before); var v := Run(w, events); var r := u.record.value;
            && v.record == Some(Announcement(r, identity).(status := Completed, manualId := Some(manualId)))
            && v.OpOf(r.action).Idle? && v.origin == u.origin && v.now == u.now && v.doomed == u.doomed && v.editor == u.editor
            && Logged(u.replies, v.replies, manualId)
  {
    var r := Run(w, before).record.value;
    events := Unblock(rule, w, before, r);
    events := Announce(rule, w, events, identity);
    events := Confirm(rule, w, events, r.action, manualId, identity);
  }

  // ---------- pruning in the millisecond of the expiry ----------

  // Some step of the run removes the record while it is pending.
  predicate DropsPending(w: World, events: seq<Event>)
    decreases |events|
  {
    events != [] &&
    (|| (w.record.Some? && IsPending(w.record.value) && Apply(w, events[0]).record.None?)
     || DropsPending(Apply(w, events[0]), events[1..]))
  }

  predicate LosesPending(w: World, events: seq<Event>, t: int) { Obeys(PruneAt(t), w, events) && DropsPending(w, events) }

  lemma {:induction false} DropsAtTheEnd(w: World, events: seq<Event>, e: Event)
    requires var v := Run(w, events); v.record.Some? && IsPending(v.record.value) && Apply(v, e).record.None?
    ensures DropsPending(w, Snoc(events, e))
    decreases |events|
  {
    if events == [] {
    } else {
      assert Snoc(events, e)[1..] == Snoc(events[1..], e);
      DropsAtTheEnd(Apply(w, events[0]), events[1..], e);
    }
  }

  lemma {:induction false} OtherTimesAreCareful(w: World, events: seq<Event>, t: int)
    requires Obeys(PruneAt(t), w, events) && w.origin.expiresAt != Some(t)
    ensures CarefulRun(w, events)
    decreases |events|
  {
    if events == [] {
    } else {
      OtherTimesAreCareful(Apply(w, events[0]), events[1..], t);
    }
  }

  lemma {:induction false} CarefulKeepsPending(w: World, events: seq<Event>)
    requires Inv(w) && CarefulRun(w, events)
    ensures !DropsPending(w, events)
    decreases |events|
  {
    if events == [] {
    } else {
      InvStep(w, events[0]);
      CarefulKeepsPending(Apply(w, events[0]), events[1..]);
    }
  }

  lemma {:induction false} NeverPending(w: World, events: seq<Event>)
    requires NoManual(w) && w.origin.fingerprint.None?
    ensures !DropsPending(w, events)
    decreases |events|
  {
    if events == [] {
    } else {
      NoManualStep(w, events[0]);
      NeverPending(Apply(w, events[0]), events[1..]);
    }
  }

  // The record is stored, the editor has found it, and at its expiry it is listed for removal.
  lemma Listed(w: World, t: int) returns (events: seq<Event>)
    requires NewRecord(w.origin) && w.origin.fingerprint.Some? && w == Init(w.origin, w.now, w.drafts)
    requires w.now <= t && w.origin.expiresAt == Some(t)
    ensures Obeys(PruneAt(t), w, events)
    ensures var v := Run(w, events);
            && v.origin == w.origin && v.now == t && v.record == Some(w.origin) && v.editor == Holding(w.origin)
            && v.doomed == 1 && v.ops == map[]
  {
    var rule := PruneAt(t);
    events := Save(rule, w, []);
    RunSnoc(rule, w, events, EditorFind);
    events := Snoc(events, EditorFind);
    RunSnoc(rule, w, events, Tick(t - w.now));
    events := Snoc(events, Tick(t - w.now));
    RunSnoc(rule, w, events, PruneList);
    events := Snoc(events, PruneList);
  }

  lemma PrunedWhilePending(w: World, t: int) returns (events: seq<Event>)
    requires NewRecord(w.origin) && w.origin.fingerprint.Some? && w == Init(w.origin, w.now, w.drafts)
    requires w.now <= t && w.origin.expiresAt == Some(t)
    ensures LosesPending(w, events, t)
  {
    events := Listed(w, t);
    events := Announce(PruneAt(t), w, events, Known("operation", "claim", w.origin.fingerprint.value));
    DropsAtTheEnd(w, events, PruneRemove(false));
    RunSnoc(PruneAt(t), w, events, PruneRemove(false));
    events := Snoc(events, PruneRemove(false));
  }

  // Pruning drops a pending record in some run exactly when it may read the clock in the
  // millisecond of the expiry: there a record is both old enough to prune and fresh enough to
  // become pending.
  lemma PruneDropsPendingIff(origin: Record, now: int, drafts: map<string, Draft>, t: int)
    requires NewRecord(origin) && now <= t
    ensures (exists events :: LosesPending(Init(origin, now, drafts), events, t)) <==>
            origin.expiresAt == Some(t) && origin.fingerprint.Some?
  {
    var w := Init(origin, now, drafts);
    if origin.expiresAt == Some(t) && origin.fingerprint.Some? {
      var events := PrunedWhilePending(w, t);
      assert LosesPending(w, events, t);
    } else {
      forall events ensures !LosesPending(w, events, t) {
        if Obeys(PruneAt(t), w, events) {
          if origin.fingerprint.None? { NeverPending(w, events); }
          else { OtherTimesAreCareful(w, events, t); CarefulKeepsPending(w, events); }
        }
      }
    }
  }

  // The listed record is claimed and completed in the millisecond of its expiry.
  lemma ConfirmedAtExpiry(w: World, t: int, m: string, identity: Identity) returns (events: seq<Event>)
    requires NewRecord(w.origin) && Claimable(w.origin, w.now) && w == Init(w.origin, w.now, w.drafts)
    requires w.origin.expiresAt == Some(t) && 1 <= |m| <= 128
    requires identity.Known? && w.origin.fingerprint == Some(identity.fingerprint)
    ensures Obeys(PruneAt(t), w, events)
    ensures var v := Run(w, events);
            && v.record.Some? && !IsPending(v.record.value) && v.doomed == 1 && v.editor == Holding(w.origin) && v.now == t
            && v.OpOf(w.origin.action).Idle? && Logged([], v.replies, m)
  {
    events := Listed(w, t);
    events := AnnounceAndConfirm(PruneAt(t), w, events, m, identity);
  }

  // The prune takes it, and the editor puts back the copy it found before.
  lemma ReopenedAtExpiry(w: World, before: seq<Event>, t: int, origin: Record) returns (events: seq<Event>)
    requires Obeys(PruneAt(t), w, before) && NewRecord(origin)
    requires var u := Run(w, before); u.record.Some? && u.doomed == 1 && u.editor == Holding(origin)
    ensures Obeys(PruneAt(t), w, events)
    ensures var u := Run(w, before); var v := Run(w, events);
            v.record == Some(origin) && v.ops == u.ops && v.now == u.now && v.replies == u.replies
  {
    RunSnoc(PruneAt(t), w, before, PruneRemove(false));
    events := Snoc(before, PruneRemove(false));
    events := Save(PruneAt(t), w, events);
  }

  lemma ConfirmedTwiceAtExpiry(w: World, t: int, m: string, n: string) returns (events: seq<Event>)
    requires NewRecord(w.origin) && Claimable(w.origin, w.now) && w == Init(w.origin, w.now, w.drafts)
    requires w.origin.expiresAt == Some(t) && 1 <= |m| <= 128 && 1 <= |n| <= 128
    ensures TwiceConfirmed(PruneAt(t), w, events, m, n)
  {
    var identity := Known("operation", "claim", w.origin.fingerprint.value);
    events := ConfirmedAtExpiry(w, t, m, identity);
    var first := Run(w, events).replies;
    events := ReopenedAtExpiry(w, events, t, w.origin);
    events := AnnounceAndConfirm(PruneAt(t), w, events, n, identity);
    BothLogged(first, Run(w, events).replies, m, n);
  }

  // Two different manuals are confirmed in some run whose prunes read the clock at t exactly
  // when t is the millisecond in which a record that can be claimed expires.
  lemma PruneConfirmsTwoManualsIff(origin: Record, now: int, drafts: map<string, Draft>, t: int, m: string, n: string)
    requires NewRecord(origin) && now <= t && m != n && 1 <= |m| <= 128 && 1 <= |n| <= 128
    ensures (exists events :: TwiceConfirmed(PruneAt(t), Init(origin, now, drafts), events, m, n)) <==>
            origin.expiresAt == Some(t) && origin.fingerprint.Some? && Dated(origin)
  {
    var w := Init(origin, now, drafts);
    if origin.expiresAt == Some(t) && origin.fingerprint.Some? && Dated(origin) {
      var events := ConfirmedTwiceAtExpiry(w, t, m, n);
      assert TwiceConfirmed(PruneAt(t), w, events, m, n);
    } else {
      forall events ensures !TwiceConfirmed(PruneAt(t), w, events, m, n) {
        if !Claimable(origin, now) { NeverConfirmed(PruneAt(t), w, events, m, n); }
        else if Obeys(PruneAt(t), w, events) { OneManual(origin, now, drafts, events, t, m, n); }
      }
    }
  }

  lemma {:induction false} OneManual(origin: Record, now: int, drafts: map<string, Draft>, events: seq<Event>, t: int, m: string, n: string)
    requires NewRecord(origin) && origin.expiresAt != Some(t) && m != n && Obeys(PruneAt(t), Init(origin, now, drafts), events)
    ensures !TwoManuals(Run(Init(origin, now, drafts), events).replies, m, n)
  {
    var log := Run(Init(origin, now, drafts), events).replies;
    OtherTimesAreCareful(Init(origin, now, drafts), events, t);
    forall x, y | x in log && y in log && x.Ok? && y.Ok? ensures Same(x.ids.manualId, y.ids.manualId) {
      OkRepliesAgree(origin, now, drafts, events, x, y);
    }
  }

  // ---------- putting back a pending copy ----------

  // The handoff expires, is pruned, and the stalled editor puts its copy back.
  lemma PutBack(w: World, before: seq<Event>) returns (events: seq<Event>)
    requires Obeys(PutBackPending, w, before)
    requires var v := Run(w, before);
             && v.record.Some? && v.record.value.status.Completed? && v.doomed == 0 && v.editor.Holding?
             && v.record.value.expiresAt == v.origin.expiresAt && Fresh(v.origin, v.now)
    ensures Obeys(PutBackPending, w, events)
    ensures var v := Run(w, before); var u := Run(w, events);
            u.record == Some(v.editor.copy) && u.drafts == v.drafts && u.replies == v.replies && u.ops == v.ops
  {
    var rule, v := PutBackPending, Run(w, before);
    var late := v.origin.expiresAt.value + 1 - v.now;
    RunSnoc(rule, w, before, Tick(late));
    events := Snoc(before, Tick(late));
    RunSnoc(rule, w, events, PruneList);
    events := Snoc(events, PruneList);
    RunSnoc(rule, w, events, PruneRemove(false));
    events := Snoc(events, PruneRemove(false));
    assert Run(w, events) == v.(now := v.now + late, record := None);
    events := Save(rule, w, events);
  }

  // The editor finds the announced record.
  lemma FoundAnnounced(w: World, identity: Identity) returns (events: seq<Event>)
    requires NewRecord(w.origin) && Claimable(w.origin, w.now) && w == Init(w.origin, w.now, w.drafts)
    requires identity.Known? && w.origin.fingerprint == Some(identity.fingerprint)
    ensures Obeys(PutBackPending, w, events)
    ensures var v := Run(w, events);
            && v.record == Some(Announcement(w.origin, identity)) && v.editor == Holding(v.record.value)
            && ReadyToConfirm(v, w.origin.action, identity) && !Blocked(v.drafts, v.record.value)
            && v.origin == w.origin && v.now == w.now && v.doomed == 0
  {
    events := Save(PutBackPending, w, []);
    events := Unblock(PutBackPending, w, events, w.origin);
    events := Announce(PutBackPending, w, events, identity);
    RunSnoc(PutBackPending, w, events, EditorFind);
    events := Snoc(events, EditorFind);
  }

  // The page confirms the first manual, and the editor still holds its copy.
  lemma ConfirmedBesideStaleCopy(w: World, m: string, identity: Identity) returns (events: seq<Event>)
    requires NewRecord(w.origin) && Claimable(w.origin, w.now) && w == Init(w.origin, w.now, w.drafts)
    requires 1 <= |m| <= 128 && identity.Known? && w.origin.fingerprint == Some(identity.fingerprint)
    ensures Obeys(PutBackPending, w, events)
    ensures var v := Run(w, events);
            && v.record.Some? && v.record.value.status.Completed? && v.record.value.expiresAt == w.origin.expiresAt
            && v.editor == Holding(Announcement(w.origin, identity)) && v.OpOf(w.origin.action).Idle?
            && v.origin == w.origin && v.now == w.now && v.doomed == 0 && Logged([], v.replies, m)
  {
    events := FoundAnnounced(w, identity);
    events := Confirm(PutBackPending, w, events, w.origin.action, m, identity);
  }

  lemma ConfirmedTwiceByStaleCopy(w: World, m: string, n: string) returns (events: seq<Event>)
    requires NewRecord(w.origin) && Claimable(w.origin, w.now) && w == Init(w.origin, w.now, w.drafts)
    requires 1 <= |m| <= 128 && 1 <= |n| <= 128
    ensures TwiceConfirmed(PutBackPending, w, events, m, n)
  {
    var identity := Known("operation", "claim", w.origin.fingerprint.value);
    events := ConfirmedBesideStaleCopy(w, m, identity);
    var first := Run(w, events).replies;
    events := PutBack(w, events);
    events := Unblock(PutBackPending, w, events, w.origin);
    events := Confirm(PutBackPending, w, events, w.origin.action, n, identity);
    BothLogged(first, Run(w, events).replies, m, n);
  }

  // An editor that still holds the pending copy of a record that has since been completed and
  // pruned puts it back, and a second manual is confirmed: for every record that can be claimed,
  // and for no other.
  lemma StaleCopyConfirmsTwoManualsIff(origin: Record, now: int, drafts: map<string, Draft>, m: string, n: string)
    requires NewRecord(origin) && 1 <= |m| <= 128 && 1 <= |n| <= 128
    ensures (exists events :: TwiceConfirmed(PutBackPending, Init(origin, now, drafts), events, m, n)) <==>
            origin.fingerprint.Some? && Dated(origin) && Fresh(origin, now)
  {
    var w := Init(origin, now, drafts);
    if Claimable(origin, now) {
      var events := ConfirmedTwiceByStaleCopy(w, m, n);
      assert TwiceConfirmed(PutBackPending, w, events, m, n);
    } else {
      forall events ensures !TwiceConfirmed(PutBackPending, w, events, m, n) {
        NeverConfirmed(PutBackPending, w, events, m, n);
      }
    }
  }
}
