# Verified model of the guest-draft, recording and upload protocols

The browser extension records a manual on the user's machine, lets the user edit it, and hands it to the web
application once the user has signed in. Between "saved here" and "saved there" lie lost replies, full disks,
closed tabs, expired hand-offs and a user who goes on editing. This project models the code that has to survive
all of that, and proves what it keeps:

| part | files | what it is about |
|---|---|---|
| claim of a draft | `Handoff`, `ClaimProtocol`, `ClaimSafety`, `ClaimAgreement`, `ClaimReplay`, `ClaimProgress`, `ClaimFaults`, `ClaimWorker` | the durable record of one hand-off, stepped at every await, with crashes, failing stores, the clock, pruning and an editing user in between |
| locks | `PromiseLocks`, `LockOrder` | the promise-chain lock, and several of them taken one inside the other |
| asset transfer | `Chunks`, `Transfers`, `AssetPage` | transfers and snapshots under one byte budget, and assets read chunk by chunk |
| recording | `CaptureEvents`, `CaptureStores`, `CaptureDraft`, `StoreWrites`, `CaptureWorker`, `Recorder`, `Handover` | the recorder in the page, the session and its journal, the messages between them, the hand-over when a recording is paused, resumed or finished, and the draft a finish writes |
| draft merge | `Json`, `EntityLists`, `DraftMerge`, `DraftMergeLaws`, `DraftEdits`, `EditLaws`, `DraftEditsLaws`, `DraftContent`, `EditableDraft` | the three-way merge of a candidate with what the user edited meanwhile |
| tab activation | `Activation` | preparing an output in a background tab, cancelling it, bringing it to the front |
| server | `StagedAssets`, `Bootstrap`, `BootstrapLaws`, `BootstrapRows` | uploads over a row store and an object store; onboarding as one atomic batch |
| algorithms | `JpegScanner`, `Base64Url`, `JoinText` | the JPEG header scanner, the secret codec on 32-bit words, the whitespace-collapsing text join |

Protocols are state machines: a value holds everything durable and volatile, `Apply` is one stretch of code
between two awaits, and results are stated for every run. Code that changes objects in place is a class or a
loop whose methods are proved against those functions. Adversarial outcomes (a store that fails before or after
taking effect, a reply that never comes) are parameters or arbitrary choices, so a result holds for all of them.
A call to a store takes effect when it is issued; its reply may be lost.

## What the code does not do

The following results record where the code differs from what its comments or tests suggest. Where a run fails,
the condition for it is exact.

- Pruning removes a record when `expiresAt <= now`, and everything else calls it fresh while `expiresAt >= now`.
  In that one millisecond a record can be listed for removal, become pending and then be removed. A run whose
  prunes read the clock at t loses a pending record if and only if the record expires at t and has a fingerprint
  (`ClaimFaults.PruneDropsPendingIff`); and two manuals are confirmed for one hand-off in such a run if and only
  if it has an update time as well (`ClaimFaults.PruneConfirmsTwoManualsIff`).
- The editor page writes back the copy of the record it found when it sees none in storage. If that copy was
  pending, and the record has since been completed and pruned, a second manual can be confirmed for the same
  hand-off. There is such a run if and only if the record starts fresh, with a fingerprint and an update time
  (`ClaimFaults.StaleCopyConfirmsTwoManualsIff`). Careful runs exclude that millisecond and this write, and
  nothing else.
- A newer version of an action whose id is already stored is acknowledged and thrown away, so that the session
  keeps the first version it was sent: the first text's time of an input, the first direction of a scroll
  (`CaptureEvents.FirstVersionStays`, `CaptureWorker.Worker.HandleCaptureEvent`).
- A pause counts as saved as soon as one of the two stores has it. When that is the session store alone, and a
  journal of the same recording is left from an earlier resume, the session is read back as recording. It is read
  back as paused if and only if no such journal is left (`StoreWrites.ReadBackIff`, `StoreWrites.PauseOverlooked`).
- A finish keeps a draft that is already there without comparing it with the session. If an earlier finish failed
  after it wrote the draft, and the recording went on because that failure was not recorded, what was recorded
  since is in no draft. The draft is complete exactly when there was none before the call, or that one has all of
  the actions (`CaptureDraft.CompleteIff`).
- A pending claim cannot be completed by any retry when the record has no update time, or when the draft still
  has the recorded update time but no canonical form any more. `ClaimReplay.ReplayCompletes` states that these
  two cases are the only ones. Repeating a completion message is idempotent exactly when the record carries no
  claim identity or the message repeats it (`ClaimReplay.RepeatIsIdempotent`).
- A bootstrap batch is refused for a denied person when the operation is new or the identity is disabled;
  a replay of a recorded operation for an active identity whose workspace is suspended commits, changes nothing
  that matters and is then refused by the read that follows (`BootstrapLaws.RefusedExactlyWhenDenied`,
  `BootstrapLaws.Refused`).

## Model

| member | source | states |
|---|---|---|
| ClaimSafety.OnlyClaimedDraftsLeave | apps/extension/background/cloud-claim.js:420-518 | In every run whatsoever, a local draft leaves the store only for a record that was written completion-pending with a manual id, and only as exactly the content and update time that record names |
| ClaimSafety.DraftsLeaveByTransaction | apps/extension/background/cloud-claim.js:494-518 | No step but the compare-and-swap transaction removes a draft, and it removes only the draft whose canonical form was computed before |
| ClaimSafety.DeletionSeesDurableRecord | apps/extension/background/cloud-claim.js:453-475 | In careful runs the durable record still says completion-pending with the manual, and still names the draft, in the very step that deletes it |
| ClaimAgreement.OkRepliesAgree | apps/extension/background/cloud-claim.js:256-283 | In careful runs all successful replies ever given for one hand-off name one operation, one claim and one manual |
| ClaimAgreement.RecordOnlyAdvances | apps/extension/background/cloud-claim.js:357-480 | In careful runs a step moves the status forward only, keeps every stored identifier, and removes the record only when it is not pending and has expired |
| ClaimAgreement.AnnouncedClaimIsKept | apps/extension/background/cloud-claim.js:357-401 | In careful runs a claim that was announced and not yet confirmed is still in the durable record with the same identifiers, whatever crashed or expired |
| ClaimReplay.ReplayCompletes | apps/extension/background/cloud-claim.js:435-475 | Without further failure a completion message completes the hand-off from every pending state, even after expiry, and from an untouched fresh record, deleting the draft exactly when it is still the claimed one; or the record is one of the two blocked kinds and stays pending |
| ClaimReplay.RepeatIsIdempotent | apps/extension/background/cloud-claim.js:435-441 | Once completed, the message changes nothing; it is answered as before if and only if there is no claim identity or the message repeats it |
| ClaimProgress.BeginIs | apps/extension/background/cloud-claim.js:256-283 | Without a failure a fresh record without an identifier gets the one drawn and is answered with it; a record that has one is answered with it, fresh or not; every other is refused and nothing changes |
| ClaimProgress.BeginAgain | apps/extension/background/cloud-claim.js:272-276 | Once begin has answered, asking again at any later time gives the same identifier and changes nothing |
| ClaimProgress.FinalizeStores | apps/extension/background/cloud-claim.js:379-395 | A fresh untouched record of this draft, begun under this identifier or not begun, becomes finalize-pending with exactly the message's identifiers, and is answered with them |
| ClaimProgress.FinalizeOkIff | apps/extension/background/cloud-claim.js:372-395 | A finalize is answered Ok if and only if it names the draft and no other operation, and the record is untouched and fresh or already carries exactly its identifiers |
| ClaimProgress.FinalizeRefuses | apps/extension/background/cloud-claim.js:372-391 | Every other finalize is refused, with the reason the source gives, and nothing changes |
| ClaimProgress.FinalizeAgain | apps/extension/background/cloud-claim.js:382-388 | The same finalize again, at any later time, is answered as the first one and changes nothing |
| ClaimProgress.RecoveryIs | apps/extension/background/cloud-claim.js:403-418 | Recovery answers with status and identifiers exactly for a record that was finalized, and changes nothing |
| ClaimProgress.CompletedRefuses | apps/extension/background/cloud-claim.js:428-452 | A completion message that does not claim the record is refused, with the reason the source gives, and nothing changes |
| ClaimProgress.CompletedAgain | apps/extension/background/cloud-claim.js:435-441 | A completed record is answered Ok exactly when the message names its manual and, if it has identifiers, all of them |
| ClaimProgress.FailureIsReported | apps/extension/background/cloud-claim.js:270-283 | A read that fails or a write that reports a failure is answered as a failure, whether it took effect or not |
| ClaimProgress.HandsOver | apps/extension/background/cloud-claim.js:256-475 | From a new fresh record of an unchanged draft, begin, finalize and completed without failures record operation, claim and manual, delete the draft and answer all three messages |
| ClaimProgress.EditorFindsIff | apps/extension/editor/handoff.js:117-140 | The editor takes up a record exactly when it is pending with both identifiers, or untouched and fresh |
| ClaimProgress.EditorStores | apps/extension/editor/editor.js:543-551 | The editor stores its copy exactly when no record is there |
| Handoff.CanonicalIff | apps/extension/editor/handoff.js:20-60 | A draft has a canonical form exactly when every list of annotations can be used |
| Handoff.CanonicalDetermines | apps/extension/editor/handoff.js:20-60 | Two drafts have one canonical form exactly when they agree in every listed field and the update time, an absent text or list standing for an empty one |
| ClaimFaults.PruneDropsPendingIff | apps/extension/editor/handoff.js:108-115 | Some run whose prunes read the clock at t loses a pending record if and only if the record expires at t and has a fingerprint |
| ClaimFaults.PruneConfirmsTwoManualsIff | apps/extension/editor/handoff.js:108-115 | In some such run two different manuals are confirmed for the hand-off if and only if, besides, the record has an update time |
| ClaimFaults.StaleCopyConfirmsTwoManualsIff | apps/extension/editor/editor.js:543-551 | In some run in which an editor may put back its pending copy, and pruning keeps away from the millisecond of the expiry, two manuals are confirmed if and only if the record starts fresh, with a fingerprint and an update time |
| ClaimWorker.Worker.Receive | apps/extension/background/service-worker.js:799-812 | A message starts its operation only when its queue is free, and the new state is the machine's |
| ClaimWorker.Worker.ResumeBegin | apps/extension/background/cloud-claim.js:264-278 | The stretch of code after the read changes the fields exactly as the machine does |
| ClaimWorker.Worker.ResumeFinalize | apps/extension/background/cloud-claim.js:372-395 | The same for finalize-pending |
| ClaimWorker.Worker.ResumeCompleted | apps/extension/background/cloud-claim.js:428-461 | The same for completed, up to the durable completion-pending record |
| ClaimWorker.Worker.ResumeDraft | apps/extension/background/cloud-claim.js:482-492 | The same for the expected canonical form of the draft |
| ClaimWorker.Worker.RunDelete | apps/extension/background/cloud-claim.js:494-518 | The delete transaction removes the draft or aborts, as the machine does |
| ClaimWorker.Worker.ResumeRecovery | apps/extension/background/cloud-claim.js:403-418 | The same for recovery |
| ClaimWorker.Worker.ListExpired | apps/extension/editor/handoff.js:108-115 | The prune's first half lists what has expired |
| ClaimWorker.Worker.RemoveListed | apps/extension/editor/handoff.js:108-115 | Its second half removes what was listed, whatever has become of it |
| ClaimWorker.Worker.Step | apps/extension/background/cloud-claim.js:256-480 | One event of any kind on the fields is one step of the machine and keeps the invariants |
| PromiseLocks.OnlyTheFirstMayEnter | apps/extension/background/cloud-claim.js:259-264 | Of all that hold or wait for a key, exactly the first in arrival order may pass its await |
| PromiseLocks.PromiseLocks.Arrive | apps/extension/background/cloud-claim.js:259-263 | An arrival joins the end of its key's queue and nobody else's place changes |
| PromiseLocks.PromiseLocks.Leave | apps/extension/background/cloud-claim.js:279-282 | The holder's release takes the first out of the queue; the map entry goes exactly with the last of them |
| PromiseLocks.LeaveTails | apps/extension/background/cloud-claim.js:279-282 | After a release the map has an entry for a key if and only if somebody holds or waits |
| LockOrder.ClaimOperationsNeverDeadlock | apps/extension/background/cloud-claim.js:357-401 | Any number of claim operations in any interleaving: never stuck, never two in one critical section, and the number of steps is bounded |
| LockOrder.MutualExclusion | apps/extension/background/cloud-claim.js:285-324 | No two operations hold one lock |
| LockOrder.ConflictsExclude | apps/extension/background/cloud-claim.js:357-401 | In every interleaving two operations that begin or finalize one hand-off, finalize or complete it, use one of its slots, or share a queue are never both inside |
| LockOrder.Progress | apps/extension/background/cloud-claim.js:363-370 | As long as one operation has not ended, one that can move is found by following the holders |
| LockOrder.Plan | apps/extension/background/cloud-claim.js:362-371 | Every operation takes its locks in one fixed order |
| Chunks.ChunksArePrefix | apps/extension/background/cloud-claim.js:344-345 | The first n chunks join to the first n times 192 KiB of the asset |
| Chunks.WholeIff | apps/worker/src/onboarding-assets.ts:454-462 | They are the whole asset from ceil(length / 192 Ki) chunks on and not before |
| Chunks.LastChunk | apps/extension/background/cloud-claim.js:347 | The end flag is true of the last chunk and of no other |
| Transfers.ClaimAssets.RemoveTransfer | apps/extension/background/cloud-claim.js:196-201 | Removing gives back exactly the transfer's bytes: the lower bound of zero never changes the total |
| Transfers.ClaimAssets.TransferFor | apps/extension/background/cloud-claim.js:203-209 | An expired transfer is dropped when it is asked for |
| Transfers.ClaimAssets.CleanupTransfers | apps/extension/background/cloud-claim.js:211-214 | Exactly the expired transfers and snapshots go, with their bytes |
| Transfers.ClaimAssets.ClearClaimRuntime | apps/extension/background/cloud-claim.js:216-226 | Exactly the hand-off's transfers and snapshot go, with their bytes |
| Transfers.AdmittedIff | apps/extension/background/cloud-claim.js:307-311 | An asset is admitted exactly when it is within 10 MiB and, with all transfers but the one it replaces, within 100 MiB; a snapshot likewise |
| Transfers.ClaimAssets.TakeSnapshot | apps/extension/background/cloud-claim.js:243-253 | A snapshot is accepted if and only if its estimate fits the budget with the previous one of the hand-off and all expired ones counted out, and then takes that one's place |
| Transfers.ClaimAssets.StoreSnapshot | apps/extension/background/cloud-claim.js:245-252 | It is accepted if and only if the total without the previous one stays within 100 MiB |
| Transfers.ClaimAssets.StoreTransfer | apps/extension/background/cloud-claim.js:307-318 | A new transfer is accepted if and only if the asset and the budget without the expired transfers and the one it replaces admit it; it then takes that one's place under a new identity, with nothing served, and the reservation is back at zero |
| Transfers.ClaimAssets.FindTransfer | apps/extension/background/cloud-claim.js:336-338 | The first check is passed if and only if the transfer is there, unexpired, and the number is its next one |
| Transfers.ClaimAssets.ServeChunk | apps/extension/background/cloud-claim.js:339-349 | A chunk is served exactly for the next number of the same, unexpired transfer; what a transfer has served is its chunks in order, and the end is reported exactly when they make up the asset |
| AssetPage.FetchAsset | apps/worker/src/onboarding-assets.ts:454-462 | Over any interleaving of starts (of this slot too), chunks, expiry, snapshots and completions: when all requests succeed the page has the asset byte for byte. When nothing interferes they succeed if and only if the budget admits the asset and every request finds the hand-off open before the transfer expires |
| CaptureEvents.MergeCaptureEvents | apps/extension/background/event-merge.js:3-16 | The loop computes the merge function |
| CaptureEvents.MergeIs | apps/extension/background/event-merge.js:3-16 | For any session and batch: the ids are the union, each id once, every earlier event stays and only new ids are added, the list is in time order with simultaneous events in arrival order, and the session is unchanged exactly when nothing is new |
| CaptureEvents.MergeAgain | apps/extension/background/event-merge.js:8-12 | Merging the same identified batch again changes nothing |
| CaptureEvents.FirstVersionStays | apps/extension/background/event-merge.js:8-12 | Of several versions of one action the session holds the first one stored: whatever is merged later leaves it, and a newer version alone changes nothing |
| CaptureEvents.FirstOfferedIsAdded | apps/extension/background/event-merge.js:8-12 | Of several versions in one batch whose id is new, the first one is the one added |
| CaptureEvents.StableSortIs | apps/extension/background/event-merge.js:14 | Sorting orders by time, loses and adds nothing and keeps the order of simultaneous events |
| CaptureEvents.MergeRecoveryEvents | apps/extension/background/recovery-journal.js:5-20 | The loop computes the journal's events |
| CaptureEvents.RecoveryIs | apps/extension/background/recovery-journal.js:5-20 | Each id once, in time order, at most a thousand events and the latest ones; while the ids fit, none is lost |
| CaptureStores.RebuildIs | apps/extension/background/service-worker.js:98-133 | The rebuilt session holds, by id, exactly the union of what the stores of that session hold, each event once |
| CaptureStores.RebuildSays | apps/extension/background/service-worker.js:122-131 | Its phase is the journal's if there is one of this session with a phase and the recorder did not fail to come back, its limit the journal's if that has one, and else the session's |
| CaptureStores.JournalSays | apps/extension/background/service-worker.js:48-56 | A write to the journal sets phase and limit when it is given them, keeps them for the same recording when not, and forgets another one's |
| CaptureStores.JournalHolds | apps/extension/background/service-worker.js:48-56 | Writing the journal keeps all events it is given, and whatever the stores knew, while at most a thousand ids are concerned |
| CaptureStores.MergePendingEventsWithoutImages | apps/extension/background/service-worker.js:544-564 | The loop computes what is kept of the recorder's events |
| CaptureStores.TakeIs | apps/extension/background/service-worker.js:544-558 | What is taken is exactly the first two hundred of the recorded and the new events, each once |
| CaptureStores.AllWithin | apps/extension/background/service-worker.js:539-564 | While there is room for all of them, every event the recorder handed over is kept |
| CaptureStores.TakeResumes | apps/extension/background/service-worker.js:429 | A batch taken again from part of the way on ends where it would have ended |
| CaptureStores.KeepPendingIs | apps/extension/background/service-worker.js:539-564 | A session at a limit takes nothing; otherwise the first two hundred actions are kept, and the limit on steps is marked, with a pause, exactly when there are more |
| StoreWrites.SavedKeeps | apps/extension/background/service-worker.js:494-496 | Writing one session to both stores, each write failing before or after it took effect, loses nothing stored; what the session holds is stored when one of the two is confirmed |
| StoreWrites.AppendedKeeps | apps/extension/background/service-worker.js:194-208 | Recording an event loses nothing stored and leaves nothing more in memory; a session answered without a limit means that the event is stored or was known, whichever writes failed |
| StoreWrites.ReadBackIff | apps/extension/background/service-worker.js:122-131 | After a save that one store confirmed the phase is read back exactly when no journal from before contradicts it |
| StoreWrites.PauseOverlooked | apps/extension/background/service-worker.js:494-506 | A pause of which only the session store knows is read back as recording when the journal says that |
| CaptureWorker.Worker.GetSession | apps/extension/background/service-worker.js:98-133 | The session is the one rebuilt from both stores and the fallback, which is dropped when it belongs to another session |
| CaptureWorker.Worker.PersistJournal | apps/extension/background/service-worker.js:48-56 | A confirmed write holds the events it was given; an unconfirmed one took effect or did not |
| CaptureWorker.Worker.SetSession | apps/extension/background/service-worker.js:135-145 | The same for the session store, with the fallback cleared only on success |
| CaptureWorker.Worker.PauseCapture | apps/extension/background/service-worker.js:483-508 | For every pattern of failures: the recorder is told to release only once each of its events within the limits, the image limit met by this very pause included, is in the session rebuilt from the two stores; until then it still holds them all. A pause that succeeds is read back as paused, unless the journal was not written and says otherwise; when nothing fails it succeeds exactly for a recording, and is read back as paused |
| CaptureWorker.Worker.ResumeCapture | apps/extension/background/service-worker.js:620-653 | The same for resuming, through its failure branch and a second retain. It succeeds only for a paused recording without a limit on its own tab, and always then when nothing fails; after that the recording is read back as going on with the same id and limit. One that fails is read back as failed |
| CaptureWorker.Worker.FinishCapture | apps/extension/background/service-worker.js:364-438 | A finish that fails tells the recorder to release, or takes it out of the page, only once each of its events within the limits is in the session rebuilt from the two stores, the image limit met by this very finish included. One that ends leaves the draft that was there, or a new one of exactly the recorded events and those retained within the limits |
| CaptureWorker.AtTheImageLimit | apps/extension/background/service-worker.js:373-376 | With an image count at its limit a pause and a finish mark it, pause, and keep what is recorded and nothing more; otherwise the count changes nothing |
| CaptureWorker.Worker.RecordAll | apps/extension/background/service-worker.js:381 | The loop records the retained events in order up to the limit or stops with everything needed for the retry still known |
| CaptureWorker.Worker.AppendCaptureEvent | apps/extension/background/service-worker.js:194-208 | One event is merged and stored, or goes to the journal with whatever waited in memory, or the step limit is marked |
| CaptureWorker.Worker.RecordEventWithImage | apps/extension/background/service-worker.js:592-607 | A recorded event whose session carries no limit is stored or was known; a known one changes no store; the recorder is drained only when the event meets a limit |
| CaptureWorker.Worker.HandleCaptureEvent | apps/extension/background/service-worker.js:866-876 | The reply accepts an event only if it is in the stores or was known to the worker, and nothing stored is lost. When nothing fails it accepts exactly the events of the own tab while recording without a limit: known ones, and new ones within both limits. A newer version of a known action changes no store |
| CaptureWorker.Worker.MarkCaptureLimit | apps/extension/background/service-worker.js:522-529 | On success one of the two stores holds the limited session, paused and marked; the recorder is drained on success alone |
| CaptureWorker.Worker.FinishFails | apps/extension/background/service-worker.js:428-435 | The retained events are added and saved as a failed finish, and only then is the recorder told to release |
| CaptureWorker.Worker.StoreDraft | apps/extension/background/service-worker.js:383-427 | The draft is written from the stored session unless one is there; the recorder is told to release only after that, and whatever fails on the way loses nothing stored |
| CaptureDraft.StepsResolve | apps/extension/background/service-worker.js:396-419 | Each step of a new draft shows an image exactly when one was taken of its event, and that image is in the draft |
| CaptureDraft.ImagesAreShown | apps/extension/background/service-worker.js:397-404 | Unless nothing was recorded, the images in a new draft are exactly those its steps show |
| CaptureDraft.ShownDistinct | apps/extension/background/service-worker.js:396-400 | No image is in a new draft twice |
| CaptureDraft.CompleteIff | apps/extension/background/service-worker.js:390-395 | The draft that an ended finish leaves has all recorded actions if and only if there was none before or that one has them |
| Recorder.Recorder.TrackAction | apps/extension/content/recorder.js:137-146 | A sent version is tracked under a generation of its own |
| Recorder.Recorder.Reply | apps/extension/content/recorder.js:147-160 | A stale acknowledgement changes nothing; a current one forgets exactly the version it acknowledges, and afterwards only actions already safe; a refusal marks the action as failed |
| Recorder.Recorder.QueueInput | apps/extension/content/recorder.js:177-187 | Input to one target is one action with newer versions; input to another target flushes it first |
| Recorder.Recorder.Scroll | apps/extension/content/recorder.js:224-246 | Scrolling one target is one action with newer versions; another target flushes it first |
| Recorder.Recorder.Click | apps/extension/content/recorder.js:258-264 | A click flushes what waits and is tracked under a new id |
| Recorder.Recorder.RecordNavigation | apps/extension/content/recorder.js:277-282 | Navigations in a row are one action |
| Recorder.Recorder.CollectPendingEvents | apps/extension/content/recorder.js:297-321 | Everything that waits or is tracked, each action once, in time order, with every action whose newest version is not accepted among it |
| Recorder.Recorder.Retain | apps/extension/content/recorder.js:347-351 | After a retain every action is accepted in its newest version or handed over, and asking again gives the same events |
| Recorder.Recorder.Release | apps/extension/content/recorder.js:352-358 | Releasing after a retain loses nothing that was not accepted or handed over |
| Recorder.Recorder.Drain | apps/extension/content/recorder.js:359-364 | A drain hands over the retained and the waiting events in time order |
| Handover.Deliver | apps/extension/background/service-worker.js:866-876 | Recorder and worker together: a message is accepted only when its action is stored, is retained by the page, or was excused, and the joint invariant holds again; something is turned away only when the event meets a limit, and only what the page has handed over |
| Handover.Answer | apps/extension/content/recorder.js:147-160 | A reply that arrives, arrives late or is lost leaves the joint invariant: whatever the page takes for accepted was acknowledged by the worker |
| Handover.NothingLost | apps/extension/content/recorder.js:297-365 | At every moment each action of the recorder in the page is stored, retained or excused, or the page holds it; once the recorder is gone it is stored or excused; and nothing was turned away unless an image count met its limit or two hundred actions are stored |
| Handover.Pause | apps/extension/background/service-worker.js:483-508 | A pause with the page going on before and after it is asked, late replies, either message lost and any store failing, keeps the joint invariant; it turns away nothing but what the page has handed over, and only at a limit; when it succeeds the recorder is gone and the recording is read back as paused, unless an older journal contradicts it |
| Handover.PauseAsked | apps/extension/background/service-worker.js:497-506 | From the retained events on: what is turned away is exactly what the limits leave out of the retained events |
| Handover.Resume | apps/extension/background/service-worker.js:620-653 | The same for a resume, whether it succeeds, fails before the first retain, or fails later and asks again; when it succeeds the recording is read back as going on |
| Handover.ResumeAgain | apps/extension/background/service-worker.js:638-652 | In the failure branch, too, only what the limits leave out is turned away |
| Handover.NoneTurnedAway | apps/extension/background/service-worker.js:539-564 | While there is room for all that is handed over, a release turns nothing away |
| Handover.Finish | apps/extension/background/service-worker.js:364-440 | From every reachable state, with the page going on meanwhile: a finish that ends keeps a draft that was there, and otherwise every action ever recorded is a step of the new draft exactly once, unless excused; one that fails keeps the joint invariant |
| Handover.Leave | apps/extension/content/recorder.js:284-293 | A page that is left takes with it at most what it alone held and no store has |
| Handover.Recording | apps/extension/background/service-worker.js:364-653 | Over any number of messages, replies, losses, pauses, resumes, failing finishes, pages left, worker restarts and recorders: every action of every recorder that is gone is in the session rebuilt from the two stores exactly once, or in the draft once the recording is finished, and each action of the one in the page is there too or the page holds it. Excused is only what a recorder handed over at a limit, which takes an image count that met it or two hundred stored actions, and what the page of a recorder held when it was left |
| DraftMergeLaws.MergeObjects | apps/extension/editor/editor.js:83-110 | Field by field: the user's value where the candidate or nobody changed it, the candidate's where only it did, and the merge of both below |
| DraftMergeLaws.MergeLists | apps/extension/editor/editor.js:112-140 | Entity by entity: the same rule by id, with additions, deletions and reordering, for all lists of entities with distinct ids |
| DraftMergeLaws.MergedOrder | apps/extension/editor/editor.js:131-139 | The user's order with the additions behind it, or the candidate's when the user left the order alone |
| DraftMergeLaws.MergeUnchangedCandidate | apps/extension/editor/editor.js:112-140 | A list the candidate did not change stays the user's |
| DraftMergeLaws.MergeUnchangedCurrent | apps/extension/editor/editor.js:112-140 | A list the user did not change becomes the candidate's |
| DraftMergeLaws.MergeAgreed | apps/extension/editor/editor.js:83-110 | Merging a change with itself changes nothing, at any depth |
| DraftMergeLaws.PlainListsAreNotMerged | apps/extension/editor/editor.js:112-116 | A list that is not one of entities with ids is not merged: the user's stays, unless the user left it alone |
| DraftMergeLaws.PlainValuesAreNotMerged | apps/extension/editor/editor.js:83-90 | Nor are plain values, or values of different kinds |
| DraftMergeLaws.MergeWf | apps/extension/editor/editor.js:83-140 | Merging trees whose lists have distinct ids gives such a tree, at every depth |
| DraftEditsLaws.MergedDraft | apps/extension/editor/editor.js:142-158 | The merged draft has exactly the user's steps in the user's order, numbered by position; every image a step shows is there; the added images are those that a step shows |
| DraftEditsLaws.MergedField | apps/extension/editor/editor.js:83-110 | Each field of each step the user still has follows the rule for its three versions |
| DraftEditsLaws.PersistedDraft | apps/extension/editor/editor.js:179-203 | The draft shown after a candidate was written is well-formed and shows the user's steps, title and description, under the time of the merge if there was anything to merge and else of the first write |
| DraftEditsLaws.EditsKeep | apps/extension/editor/draft-model.js:1-41 | Any sequence of edits keeps what the merge relies on |
| DraftEditsLaws.RemainingKeeps | apps/extension/editor/draft-model.js:31-34 | Deleting a step removes exactly that step |
| EditLaws.MoveIs | apps/extension/editor/draft-model.js:36-41 | Moving up exchanges a step with the one before it, moving down with the one after it; at either end and for an unknown step nothing moves; every step keeps its fields, numbered by position |
| EditLaws.AddIs | apps/extension/editor/draft-model.js:12-23 | A new step comes last with its text cut to five hundred characters and the first image no step shows; every other step is where it was |
| EditLaws.InstructIs | apps/extension/editor/draft-model.js:25-29 | The first step with the id gets the text, cut likewise; nothing else changes but numbers and time |
| EditLaws.RemoveIs | apps/extension/editor/draft-model.js:31-34 | The steps behind the deleted one move up by one; without such a step nothing moves |
| DraftEditsLaws.AnnotateIsCandidate | apps/extension/editor/editor.js:374 | The image editor's candidate keeps every id of the draft it started from |
| DraftEditsLaws.UploadIsCandidate | apps/extension/editor/editor.js:399-409 | The upload's candidate does too, and its new image is shown by a step |
| DraftContent.UserEditWins | apps/extension/editor/editor.js:142-158 | A field of a step that the user changed to a plain value keeps it in the merged draft, whatever the candidate did |
| DraftContent.MergedImage | apps/extension/editor/editor.js:142-158 | Each field of each image of the base follows the rule for its three versions in the merged draft, and none of these images goes |
| DraftContent.MergedNewImage | apps/extension/editor/editor.js:148-155 | An image only the candidate brought is there as it brought it, if and only if some step of the merged draft shows it |
| DraftContent.PersistedStep | apps/extension/editor/editor.js:179-203 | Once the candidate is written, every step of the user's keeps each of its fields but the image; a step that was there before shows the candidate's choice of image, a new one the user's |
| DraftContent.PersistedImage | apps/extension/editor/editor.js:179-203 | The shown image carries the candidate's change of each field, unless the user changed that field |
| DraftContent.PersistedNewImage | apps/extension/editor/editor.js:179-203 | An image only the candidate brought is shown as it was brought, if and only if some step shows it |
| DraftContent.AnnotatedWhileEditing | apps/extension/editor/editor.js:374 | Annotating while the user edits: the image has the new annotations and masks and every other field, every other image and every text is as before or as the user left it |
| DraftContent.UploadedWhileEditing | apps/extension/editor/editor.js:399-409 | Uploading while the user edits: a step the user kept shows the uploaded image, without annotations or masks, which is its own image, or a new one if it had none or another step shows it too; every other field, step and image is as the user sees it. If the step was deleted meanwhile, its own image is replaced all the same and a new one is not left over |
| DraftContent.ConcurrentEditing | apps/extension/editor/editor.js:142-203 | For either kind of candidate and any edits made while it was written: the user's steps in the user's order, numbered, every image resolved and none left over, under the user's title and description |
| EditableDraft.Draft.Touch | apps/extension/editor/draft-model.js:1-5 | The loop renumbers the steps in place as the function does |
| EditableDraft.Draft.AddStep | apps/extension/editor/draft-model.js:12-23 | Adding in place is the edit, stated position by position |
| EditableDraft.Draft.UpdateStepInstruction | apps/extension/editor/draft-model.js:25-29 | Changing an instruction in place is the edit, stated position by position |
| EditableDraft.Draft.DeleteStep | apps/extension/editor/draft-model.js:31-34 | Deleting in place is the edit, stated position by position |
| EditableDraft.Draft.MoveStep | apps/extension/editor/draft-model.js:36-41 | Swapping in place exchanges the step with its neighbour in the given direction, and with nobody at the end |
| EditableDraft.Draft.FinishPersist | apps/extension/editor/editor.js:179-203 | Assigning the merged candidate over the shown draft leaves a well-formed draft |
| Activation.CancelledNeverFronts | apps/extension/editor/editor.js:612-664 | In every interleaving, once a run is cancelled or another one started, its tab is never brought to the front |
| Activation.FrontsOnlyTheActive | apps/extension/editor/editor.js:618-637 | One event brings at most one tab to the front, that of the run active at that moment |
| Activation.FrontingIsUndisturbed | apps/extension/editor/editor.js:507-513 | While the call is under way its run stays the only active one, and neither a cancellation nor a new output gets in |
| Activation.CancelTakesEffect | apps/extension/editor/editor.js:507-513 | A cancellation that is not refused cancels the active run at once |
| Activation.FrontsIff | apps/extension/editor/editor.js:612-637 | A tab is brought to the front exactly when the task has read the record, its run is neither cancelled nor replaced, the record has the task's policy, and an automatic activation finds the page ready before the deadline |
| Activation.LateIsOffered | apps/extension/editor/editor.js:621-627 | An active automatic activation that finds the deadline past is offered for a click: nothing is fronted and the policy becomes manual |
| Activation.LateWaitsForAClick | apps/extension/editor/editor.js:618-669 | In every run, once an automatic activation was found late its tab comes to the front only after a click |
| Activation.OutputIsPrepared | apps/extension/editor/editor.js:532-611 | A new output without failures has its tab prepared in the background, its record written, and nothing fronted |
| Activation.ReadyPageIsFronted | apps/extension/editor/editor.js:612-669 | A page that reports in time is brought to the front by itself, recorded as activated, and its run is over |
| Activation.ClickFronts | apps/extension/editor/editor.js:671-720 | A click on the offer brings the tab to the front however late it is |
| Activation.FailureCleansUp | apps/extension/editor/editor.js:640-669 | An output that fails closes a tab that shows nothing yet, gives the run up and fronts nothing |
| Activation.FailedClickIsGivenUp | apps/extension/editor/editor.js:671-720 | A manual activation that fails gives the run and the offer up |
| Activation.ChangedPolicyIsNotActivated | apps/extension/editor/editor.js:630-637 | A record whose policy changed while the tab came to the front is not marked as activated |
| Activation.CancelIsRecorded | apps/extension/editor/editor.js:503-513 | A cancellation is recorded, and the page's message changes nothing from then on |
| Activation.StepIs | apps/extension/editor/editor.js:532-669 | What any await of any task may do to its own run and to the active one |
| StagedAssets.SuccessesAgree | apps/worker/src/cloud-manual-router.ts:262-347 | All uploads of a slot answered with success have one checksum, length and type, and an object with exactly these is stored |
| StagedAssets.FinalizeAcceptsWhatWasStaged | apps/worker/src/cloud-manual-router.ts:411-423 | A finalize that accepts the slot accepts the checksum every successful upload reported, with its object there |
| StagedAssets.AcceptedWasNamed | apps/worker/src/cloud-manual-router.ts:411-423 | In every run a finalize that is accepted named the checksum of the row, which was staged with its object there |
| StagedAssets.FinalizeAcceptsIff | apps/worker/src/cloud-manual-router.ts:411-423 | Without failures a finalize is accepted exactly when it names the checksum of a staged row whose object is there |
| StagedAssets.AnsweredForGood | apps/worker/src/cloud-manual-router.ts:287-304 | After a success no other content for the slot is ever answered with success |
| StagedAssets.RetrySucceeds | apps/worker/src/cloud-manual-router.ts:287-347 | Without failures a lone upload of a fresh slot, and every retry of it, succeeds |
| StagedAssets.LoneUploadIff | apps/worker/src/cloud-manual-router.ts:262-347 | Without failures a lone upload succeeds exactly when the slot is free or has this content, and the object is this one or can still be stored; the row is then staged and the object there |
| StagedAssets.UploadThenFinalize | apps/worker/src/cloud-manual-router.ts:411-423 | What was uploaded so is accepted by a finalize that names it |
| StagedAssets.LostPutGoesOn | apps/worker/src/cloud-manual-router.ts:310-330 | An upload whose put lost its reply goes on exactly when the object is there |
| StagedAssets.LostRaceGoesOn | apps/worker/src/cloud-manual-router.ts:331-347 | One that lost the race to mark the row succeeds exactly when the row is staged with its object there |
| StagedAssets.CallKeeps | apps/worker/src/infra/d1/cloud-manual-repository.ts:268-303 | One store call keeps what its request knows and never changes a decided slot or a stored object |
| Bootstrap.Database.Bootstrap | apps/worker/src/infra/d1/onboarding-repository.ts:32-66 | The statements run as one transaction: committed as the batch function says, or the tables are as before |
| BootstrapLaws.RefusedExactlyWhenDenied | apps/worker/src/infra/d1/onboarding-repository.ts:80-94 | With fresh ids a batch is refused exactly when assertAvailable reports the person or workspace and the operation is new or the identity disabled |
| BootstrapLaws.Refused | apps/worker/src/infra/d1/onboarding-repository.ts:55-65 | A denied batch that still commits changes neither identities, workspaces, members nor operations |
| BootstrapLaws.BatchKeeps | migrations/0002_d1_personal_workspace.sql:5-7 | A batch keeps every uniqueness constraint, and every row that must not change |
| BootstrapLaws.FirstBootstrap | apps/worker/src/infra/d1/onboarding-repository.ts:36-71 | The first bootstrap of a person commits and makes one workspace, one marked operation, one signup event, and the answer says so |
| BootstrapLaws.LaterBootstrap | apps/worker/src/infra/d1/onboarding-repository.ts:55-65 | A person who was there before gets no second identity, marked operation or signup event |
| BootstrapLaws.EachThingOnce | migrations/0003_d1_onboarding_bootstrap.sql:15-17 | Over any sequence of batches and outside changes: one personal workspace for a creator, one operation marked as creating an identity, the signup event only with it and always for an identity a batch created |
| BootstrapLaws.ReplaysAgree | apps/worker/src/infra/d1/onboarding-repository.ts:67-71 | All answers to one person's operation are the same, however often it is sent and whatever happens in between |
| BootstrapRows.FirstRows | apps/worker/src/infra/d1/onboarding-repository.ts:36-71 | A first bootstrap writes exactly one row of each kind and answers with the new workspace and identity |
| BootstrapRows.LaterRows | apps/worker/src/infra/d1/onboarding-repository.ts:55-71 | A new operation of a person who may be served is recorded for the personal workspace as one that created no identity, and answered so |
| BootstrapRows.ReadBackIff | apps/worker/src/infra/d1/onboarding-repository.ts:67-71 | The answer is read exactly from the recorded operation of an active owner of the active personal workspace |
| BootstrapRows.AvailableIff | apps/worker/src/infra/d1/onboarding-repository.ts:80-94 | Who may be served, in terms of the rows |
| JpegScanner.ReadJpegDimensions | apps/extension/editor/editor.js:257-280 | The loop on the offset terminates, reads in bounds and computes the scan, on every input |
| JpegScanner.ScannerReadsExactlyTheSyntax | apps/extension/editor/editor.js:257-280 | Up to ten megabytes, a size is reported if and only if the image is SOI, passed-over items, a frame header with at least one component, and any tail; and it is that header's X and Y |
| JpegScanner.HeaderWithinTheLimitIsRead | apps/extension/editor/editor.js:236-240 | A longer file is read as well when its frame header ends within ten megabytes |
| JpegScanner.ImageIsRead | apps/extension/editor/editor.js:258-277 | Every image of the syntax is read |
| JpegScanner.ReadIsImage | apps/extension/editor/editor.js:258-277 | Nothing else is |
| JpegScanner.MarkersAre | apps/extension/editor/editor.js:264-271 | The markers that start a frame, that stand alone, and that end the scan, one by one (Table B.1 of ITU-T T.81) |
| Base64Url.BytesToBase64Url | apps/worker/src/share-link-crypto.ts:11-25 | With a 32-bit accumulator that is never masked the loop writes the base64url text of the octets |
| Base64Url.Base64UrlToBytes | apps/worker/src/share-link-crypto.ts:27-43 | The same for reading; an empty text or a foreign character is refused |
| Base64Url.EncodeIsGroups | apps/worker/src/share-link-crypto.ts:11-25 | The bit-by-bit encoding is the one by groups of three octets (section 5 of RFC 4648) |
| Base64Url.DecodeEncode | apps/worker/src/share-link-crypto.ts:11-43 | Decoding undoes encoding for every sequence of octets |
| Base64Url.GroupsLength | apps/worker/src/share-link-crypto.ts:53 | An encoding of n octets has ceil(8n / 6) letters |
| Base64Url.AlphabetIs | apps/worker/src/share-link-crypto.ts:2 | Letters and digits are those of Table 2 of RFC 4648, and nothing else is read |
| Base64Url.EncodeDecode | apps/worker/src/share-link-crypto.ts:55 | Encoding undoes decoding if and only if there is no lone digit and the trailing bits are zero (section 3.5 of RFC 4648) |
| Base64Url.ValidateSecret | apps/worker/src/share-link-crypto.ts:51-57 | A secret is accepted if and only if n is positive and it is the encoding of some n octets |
| Base64Url.TrailingBitsDecide | apps/worker/src/share-link-crypto.ts:55 | Of the texts of the right length and alphabet, exactly those with nonzero trailing bits are refused |
| JoinText.JoinRenderedText | apps/extension/capture/screenshot.js:294-325 | The nested loops compute the join and its map |
| JoinText.JoinIsFaithful | apps/extension/capture/screenshot.js:294-325 | As many map entries as characters; each is its one source character or the space of a run of collapsing characters; the spans are disjoint and in document order |
| JoinText.JoinLosesOnlyBlanks | apps/extension/capture/screenshot.js:294-325 | Dropping space, tab, newline, form feed and carriage return leaves the same text on both sides |
| JoinText.EveryPositionIsMapped | apps/extension/capture/screenshot.js:308-320 | Every source character is mapped, alone or in one run, and no two runs are next to each other |
| JoinText.RangeRunsForward | apps/extension/capture/screenshot.js:461-477 | A match's range runs forward from the start of its first character's source to the end of its last one's |
| JoinText.CollapsesAre | apps/extension/capture/screenshot.js:304-311 | Which characters collapse under which white-space value, one by one |

## Left out

- Message validation, sender origins, URL building and the patterns of identifiers: a message is assumed to have passed them.
- SHA-256 is an injective function, random identifiers are fresh, an IndexedDB transaction and a D1 batch are atomic, a web lock is a mutex.
- A store call takes effect when it is issued: a write that is delayed past later steps of another operation is not modelled.
- The draft as JSON leaves out values JSON has no notation for (undefined, integer-like keys reordered by the engine) and compares numbers as reals.
- Ids of entities that are themselves lists or objects are compared by value, where the original compares objects by identity.
- Editing masks and annotations on their own, previews, focus, labels and every other part of the pages that only draws.
- PNG and WebP headers: only the JPEG branch of the header reader is modelled; no other branch accepts a file that begins with SOI.
- The label with which begin reports an identifier as active or expired: the reply carries the identifier alone.
- Labels and targets of recorded events: normalisation is modelled as keeping the id up to 160 characters and the time; one clock reading serves a whole batch.
- Events without an id: every event of the recorder and of the worker carries one, and the results about the stores are stated for such events; an event without one would be added to the journal each time it is written.
- Step image references and the screenshots themselves; of the draft a finish writes, the instruction texts, the random ids of its steps and its times.
- Starting and cancelling a recording, restoring the window, and the side panel.
- Scroll positions are not computed: whether a target has a known position and has moved by 80 pixels is a parameter.
- The recorder is handed over in the order of its times; actions with the same time come in an unspecified order.
- Transfers.ClaimAssets.StoreTransfer: the masked image is an arbitrary byte sequence, because drawing and encoding belong to the browser; an asset of no bytes is never reported as finished.
- ClaimAgreement.OkRepliesAgree: stated for careful runs only, because either kind of run they exclude breaks it: ClaimFaults.PruneConfirmsTwoManualsIff and ClaimFaults.StaleCopyConfirmsTwoManualsIff say exactly when.
- ClaimSafety.DeletionSeesDurableRecord: stated for careful runs only; in a run that prunes in the millisecond of the expiry the record may be gone when the draft it named is deleted, which ClaimSafety.OnlyClaimedDraftsLeave still covers.
- ClaimAgreement.RecordOnlyAdvances: stated for careful runs only, because the prune in the millisecond of the expiry removes a pending record and a stale pending copy comes back after the record was removed.
- ClaimAgreement.AnnouncedClaimIsKept: stated for careful runs only, for the same two reasons.
- Handover.Recording: leaves out the cancellation of a recording (closing its tab cancels it) and the worker recording a navigation by itself. A message may be handled twice. A run is followed until a finish finds more than a thousand recorded and retained events together, or, for the result about the draft, until a failing finish leaves a draft behind.
- CaptureWorker.Worker.PauseCapture: as for the resume and the finish, the guarantee is for sessions of at most a thousand events, the bound of the journal; the code stores at most two hundred.
- LockOrder.ClaimOperationsNeverDeadlock: the operation queue of the service worker counts as the outermost lock; a lock that is never released because its holder never ends is not modelled.
- The ready lock between the editor and the service worker is not needed for the results on activation; its only effect there is to order the accesses to the ready record.
- StagedAssets.SuccessesAgree: objects and rows are never deleted, as no code of the repository deletes them; completing an intent and its expiry only ever refuse requests and are part of the arbitrary failures.
- Bootstrap.Database.Bootstrap: the limit of a thousand members and the uniqueness of slugs are left to the freshness of the ids.
- Everything in the router beyond the staged upload and the per-asset checks of finalize, share links other than their secrets, sign-in, Discord and GitHub.
