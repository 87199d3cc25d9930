/**
 The guest-draft claim protocol: the durable record of one handoff, the messages of the web
 page, the editor that owns the local draft, expiry, pruning, storage failures and crashes.
 One event is one uninterrupted stretch of code between two awaits.
 Sources: apps/extension/background/cloud-claim.js, apps/extension/background/service-worker.js,
 apps/extension/editor/handoff.js, apps/extension/editor/editor.js.
 */
module ClaimProtocol {
  import opened Basics
  import opened Handoff

  datatype Action = Save | Share
  datatype Status = Unset | FinalizePending | CompletionPending | Completed

  // The stored handoff metadata. expiresAt is None when the stored time does not parse.
  datatype Record = Record(draftId: string, action: Action, draftUpdatedAt: Option<string>,
                           fingerprint: Option<Fingerprint>, expiresAt: Option<int>, status: Status,
                           operationId: Option<string>, claimIntentId: Option<string>, manualId: Option<string>)

  // The three recovery fields of a message: all absent, not all well-formed, or all well-formed.
  datatype Identity = Blank | Broken | Known(operationId: string, claimIntentId: string, fingerprint: Fingerprint)

  datatype Message =
    | BeginMessage
    | RecoveryMessage
    | FinalizeMessage(identity: Identity)
    | CompletedMessage(manualId: string, identity: Identity)

  datatype Code = RequestRejected | ExpiredOrUnknown | DraftChanged | RecoveryMismatch | CompletionMismatch
                | FingerprintRequired | RecoveryNotFound | HandoffFailed

  // The identifiers a handoff is answered with.
  datatype Ids = Ids(operationId: Option<string>, claimIntentId: Option<string>, manualId: Option<string>)

  datatype Reply = Rejected(code: Code) | Ok(status: Option<Status>, ids: Ids)

  // What one storage write did: it can fail before or after it took effect.
  datatype Write = Stored | StoredButFailed | NotStored

  // Where the operation of one queue stands; "read" is what storage returned to it.
  datatype Op =
    | Idle
    | BeginRead(read: Option<Record>)
    | BeginSaved(operationId: string, write: Write)
    | RecoveryRead(read: Option<Record>)
    | FinalizeRead(identity: Identity, read: Option<Record>)
    | FinalizeSaved(identity: Identity, write: Write)
    | CompletedRead(manualId: string, identity: Identity, read: Option<Record>)
    | PendingSaved(pending: Record, write: Write)
    | DraftRead(pending: Record, draft: Option<Draft>)
    | DraftHashed(pending: Record, expected: Canonical)
    | DraftSettled(pending: Record, failed: bool)
    | FinalSaved(pending: Record, write: Write)

  // The editor that opens the output tab, inside the lock on the draft.
  datatype Editor = Away | Holding(copy: Record) | SawAbsent(copy: Record)

  /** One handoff's world. ids, pendings and replies only remember what happened. */
  datatype World = World(
    origin: Record, now: int, record: Option<Record>, drafts: map<string, Draft>,
    ops: map<Action, Op>, doomed: nat, editor: Editor,
    ids: Ids, pendings: set<Record>, replies: seq<Reply>)
  {
    function OpOf(a: Action): Op { if a in ops then ops[a] else Idle }
  }

  // What the environment decides when an awaited call comes back.
  datatype Choice = Choice(readFails: bool, write: Write, operationId: string, deleteFails: bool)

  datatype Event =
    | Start(action: Action, message: Message)
    | Advance(action: Action, choice: Choice)
    | Tick(elapsed: nat)
    | PutDraft(id: string, draft: Draft)
    | PruneList
    | PruneRemove(fails: bool)
    | EditorFind
    | EditorLook
    | EditorSave(write: Write)
    | EditorLeave
    | Crash

  // ---------- the operations, one function per stretch of code ----------

  predicate IsPending(r: Record) { r.status.FinalizePending? || r.status.CompletionPending? }

  predicate Fresh(r: Record, now: int) { r.expiresAt.Some? && r.expiresAt.value >= now }

  predicate Prunable(r: Record, now: int) { !IsPending(r) && r.expiresAt.Some? && r.expiresAt.value <= now }

  // The record findRecoverableHandoff may hand to the editor.
  predicate Recoverable(r: Record, now: int) {
    && r.fingerprint.Some?
    && ((IsPending(r) && r.operationId.Some? && r.claimIntentId.Some?) || (r.status.Unset? && Fresh(r, now)))
  }

  function IdsOf(r: Record): Ids { Ids(r.operationId, r.claimIntentId, r.manualId) }

  function Latest(o: Option<string>, before: Option<string>): Option<string> { if o.Some? then o else before }

  function Learn(ids: Ids, r: Record): Ids {
    Ids(Latest(r.operationId, ids.operationId), Latest(r.claimIntentId, ids.claimIntentId), Latest(r.manualId, ids.manualId))
  }

  // A stretch of code of one operation: at most one storage write, at most one deleted draft,
  // then either the next await or the reply.
  datatype Put = NoPut | Put(record: Record, write: Write)
  datatype Effect = Effect(put: Put, deletes: Option<string>, next: Op, reply: Option<Reply>)

  function Answer(r: Reply): Effect { Effect(NoPut, None, Idle, Some(r)) }

  function Wait(op: Op): Effect { Effect(NoPut, None, op, None) }

  function StartOp(record: Option<Record>, m: Message): Effect {
    match m
    case BeginMessage => Wait(BeginRead(record))
    case RecoveryMessage => Wait(RecoveryRead(record))
    case FinalizeMessage(identity) =>
      if identity.Known? then Wait(FinalizeRead(identity, record)) else Answer(Rejected(RequestRejected))
    case CompletedMessage(manualId, identity) =>
      if 1 <= |manualId| <= 128 then Wait(CompletedRead(manualId, identity, record)) else Answer(Rejected(RequestRejected))
  }

  function AfterBeginRead(now: int, a: Action, c: Choice, read: Option<Record>): Effect {
    if read.None? || read.value.action != a || read.value.fingerprint.None? || read.value.expiresAt.None? then
      Answer(Rejected(ExpiredOrUnknown))
    else
      var m := read.value;
      if m.operationId.Some? then Answer(Ok(None, Ids(m.operationId, None, None)))
      else if m.expiresAt.value < now then Answer(Rejected(ExpiredOrUnknown))
      else Effect(Put(m.(operationId := Some(c.operationId)), c.write), None, BeginSaved(c.operationId, c.write), None)
  }

  function AfterRecoveryRead(a: Action, read: Option<Record>): Effect {
    if read.None? || read.value.action != a || read.value.status.Unset?
       || read.value.operationId.None? || read.value.claimIntentId.None? || read.value.fingerprint.None? then
      Answer(Rejected(RecoveryNotFound))
    else Answer(Ok(Some(read.value.status), IdsOf(read.value)))
  }

  function AfterFinalizeRead(now: int, a: Action, c: Choice, identity: Identity, read: Option<Record>): Effect
    requires identity.Known?
  {
    if read.None? || read.value.action != a || read.value.fingerprint.None? then Answer(Rejected(ExpiredOrUnknown))
    else
      var m := read.value;
      if m.fingerprint != Some(identity.fingerprint) then Answer(Rejected(DraftChanged))
      else if m.operationId.Some? && m.operationId.value != identity.operationId then Answer(Rejected(RecoveryMismatch))
      else if !m.status.Unset? then
        if m.operationId != Some(identity.operationId) || m.claimIntentId != Some(identity.claimIntentId) then
          Answer(Rejected(RecoveryMismatch))
        else Answer(Ok(Some(m.status), Ids(m.operationId, m.claimIntentId, None)))
      else if !Fresh(m, now) then Answer(Rejected(ExpiredOrUnknown))
      else
        var finalizing := m.(status := FinalizePending, operationId := Some(identity.operationId),
        claimIntentId := Some(identity.claimIntentId));
        Effect(Put(finalizing, c.write), None, FinalizeSaved(identity, c.write), None)
  }

  // The message names exactly the identity the record stores.
  predicate SameIdentity(m: Record, identity: Identity) {
    && identity.Known?
    && m.operationId == Some(identity.operationId)
    && m.claimIntentId == Some(identity.claimIntentId)
    && m.fingerprint == Some(identity.fingerprint)
  }

  // The looser comparison for a record that is not finalize-pending.
  predicate CompatibleIdentity(m: Record, identity: Identity) {
    identity.Blank? ||
    (&& identity.Known?
     && (m.operationId.Some? ==> m.operationId.value == identity.operationId)
     && (m.claimIntentId.Some? ==> m.claimIntentId.value == identity.claimIntentId)
     && m.fingerprint == Some(identity.fingerprint))
  }

  predicate Dated(m: Record) { m.draftUpdatedAt.Some? && m.draftUpdatedAt.value != "" }

  function PendingOf(m: Record, manualId: string): Record {
    m.(status := CompletionPending, manualId := if m.manualId.Some? then m.manualId else Some(manualId))
  }

  function Lookup(drafts: map<string, Draft>, id: string): Option<Draft> {
    if id in drafts then Some(drafts[id]) else None
  }

  function AfterCompletedRead(now: int, drafts: map<string, Draft>, a: Action, c: Choice, manualId: string,
                              identity: Identity, read: Option<Record>): Effect
  {
    if read.None? || read.value.action != a then Answer(Rejected(ExpiredOrUnknown))
    else if read.value.fingerprint.None? then Answer(Rejected(FingerprintRequired))
    else
      var m := read.value;
      if m.status.Completed? then
        if (m.operationId.Some? || m.claimIntentId.Some?) && !SameIdentity(m, identity) then Answer(Rejected(RecoveryMismatch))
        else if m.manualId == Some(manualId) then Answer(Ok(Some(Completed), Ids(None, None, Some(manualId))))
        else Answer(Rejected(CompletionMismatch))
      else if m.status.FinalizePending? && !SameIdentity(m, identity) then Answer(Rejected(RecoveryMismatch))
      else if !m.status.FinalizePending? && !CompatibleIdentity(m, identity) then Answer(Rejected(RecoveryMismatch))
      else if m.status.CompletionPending? && m.manualId != Some(manualId) then Answer(Rejected(CompletionMismatch))
      else if m.status.Unset? && !Fresh(m, now) then Answer(Rejected(ExpiredOrUnknown))
      else if !Dated(m) then Answer(Rejected(DraftChanged))
      else
        var pending := PendingOf(m, manualId);
        if m.status.CompletionPending? then Wait(DraftRead(pending, Lookup(drafts, pending.draftId)))
        else Effect(Put(pending, c.write), None, PendingSaved(pending, c.write), None)
  }

  function SaveFinal(c: Choice, pending: Record): Effect {
    Effect(Put(pending.(status := Completed), c.write), None, FinalSaved(pending, c.write), None)
  }

  function AfterDraftRead(c: Choice, pending: Record, draft: Option<Draft>): Effect {
    if draft.None? || draft.value.updatedAt != pending.draftUpdatedAt then SaveFinal(c, pending)
    else
      var canonical := Canonicalize(draft.value);
      if canonical.None? then Answer(Rejected(HandoffFailed))
      else if pending.fingerprint.Some? && !NamesCanonical(pending.fingerprint.value, canonical.value) then SaveFinal(c, pending)
      else Wait(DraftHashed(pending, canonical.value))
  }

  // transactDraftDelete: one IndexedDB transaction that compares and deletes.
  function TransactDelete(stored: Option<Draft>, c: Choice, pending: Record, expected: Canonical): Effect {
    if c.deleteFails then Wait(DraftSettled(pending, true))
    else if stored.None? || stored.value.updatedAt != pending.draftUpdatedAt then Wait(DraftSettled(pending, false))
    else
      var canonical := Canonicalize(stored.value);
      if canonical != Some(expected) then Wait(DraftSettled(pending, canonical.None?))
      else Effect(NoPut, Some(pending.draftId), DraftSettled(pending, false), None)
  }

  function Failing(c: Choice, e: Effect): Effect { if c.readFails then Answer(Rejected(HandoffFailed)) else e }

  function AdvanceOp(op: Op, now: int, drafts: map<string, Draft>, a: Action, c: Choice): Effect {
    match op
    case Idle => Wait(Idle)
    case BeginRead(read) => Failing(c, AfterBeginRead(now, a, c, read))
    case BeginSaved(operationId, write) =>
      Answer(if write.Stored? then Ok(None, Ids(Some(operationId), None, None)) else Rejected(HandoffFailed))
    case RecoveryRead(read) => Failing(c, AfterRecoveryRead(a, read))
    case FinalizeRead(identity, read) =>
      if identity.Known? then Failing(c, AfterFinalizeRead(now, a, c, identity, read)) else Answer(Rejected(RequestRejected))
    case FinalizeSaved(identity, write) =>
      Answer(if write.Stored? && identity.Known?
             then Ok(Some(FinalizePending), Ids(Some(identity.operationId), Some(identity.claimIntentId), None))
             else Rejected(HandoffFailed))
    case CompletedRead(manualId, identity, read) =>
      Failing(c, AfterCompletedRead(now, drafts, a, c, manualId, identity, read))
    case PendingSaved(pending, write) =>
      if write.Stored? then Wait(DraftRead(pending, Lookup(drafts, pending.draftId))) else Answer(Rejected(HandoffFailed))
    case DraftRead(pending, draft) => Failing(c, AfterDraftRead(c, pending, draft))
    case DraftHashed(pending, expected) => TransactDelete(Lookup(drafts, pending.draftId), c, pending, expected)
    case DraftSettled(pending, failed) =>
      if failed then Answer(Rejected(HandoffFailed)) else SaveFinal(c, pending)
    case FinalSaved(pending, write) =>
      Answer(if write.Stored? then Ok(Some(Completed), Ids(None, None, pending.manualId)) else Rejected(HandoffFailed))
  }

  function Store(w: World, put: Put): World {
    if put.NoPut? || put.write.NotStored? then w
    else w.(record := Some(put.record), ids := Learn(w.ids, put.record),
            pendings := if put.record.status.CompletionPending? then w.pendings + {put.record} else w.pendings)
  }

  function Commit(w: World, a: Action, e: Effect): World {
    Store(w, e.put).(ops := w.ops[a := e.next],
                     drafts := if e.deletes.Some? then w.drafts - {e.deletes.value} else w.drafts,
                     replies := if e.reply.Some? then w.replies + [e.reply.value] else w.replies)
  }

  function Apply(w: World, e: Event): World {
    match e
    case Start(a, m) => if w.OpOf(a).Idle? then Commit(w, a, StartOp(w.record, m)) else w
    case Advance(a, c) => Commit(w, a, AdvanceOp(w.OpOf(a), w.now, w.drafts, a, c))
    case Tick(elapsed) => w.(now := w.now + elapsed)
    case PutDraft(id, d) => w.(drafts := w.drafts[id := d])
    case PruneList => if w.record.Some? && Prunable(w.record.value, w.now) then w.(doomed := w.doomed + 1) else w
    case PruneRemove(fails) =>
      if w.doomed == 0 then w
      else w.(doomed := w.doomed - 1, record := if fails then w.record else None)
    case EditorFind =>
      if w.editor.Away? && w.record.Some? && Recoverable(w.record.value, w.now) then w.(editor := Holding(w.record.value)) else w
    case EditorLook =>
      if !w.editor.Holding? then w
      else w.(editor := if w.record.None? then SawAbsent(w.editor.copy) else Away)
    case EditorSave(write) =>
      if !w.editor.SawAbsent? then w else Store(w, Put(w.editor.copy, write)).(editor := Away)
    case EditorLeave => w.(editor := Away)
    case Crash => w.(ops := map[])
  }

  function Run(w: World, events: seq<Event>): World
    decreases |events|
  {
    if events == [] then w else Run(Apply(w, events[0]), events[1..])
  }

  // The metadata createHandoffMetadata returns: no status and no identifiers yet.
  predicate NewRecord(r: Record) { r.status.Unset? && IdsOf(r) == Ids(None, None, None) }

  // The editor has just created the metadata and is about to look for a stored record.
  function Init(origin: Record, now: int, drafts: map<string, Draft>): World {
    World(origin, now, None, drafts, map[], 0, Holding(origin), Ids(None, None, None), {}, [])
  }
}
