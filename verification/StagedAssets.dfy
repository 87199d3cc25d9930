/**
 Uploading the image of one slot of one claim: a row store and an object store, any number of requests at once,
 retries, and replies of either store lost before or after they took effect
 (apps/worker/src/cloud-manual-router.ts:262-347,411-432, apps/worker/src/infra/d1/cloud-manual-repository.ts:268-303).
 */
module StagedAssets {
  import opened Basics

  // A request body that passed the length, signature and digest checks.
  datatype Upload = Upload(contentType: string, byteLength: nat, sha: string)

  datatype Status = Reserved | Staged | Completed

  // The row of the slot; its identity, workspace, operation and key follow from claim, slot and content type.
  datatype Row = Row(upload: Upload, status: Status)

  // A stored object with the five metadata entries written beside it.
  datatype Object = Object(size: nat, contentType: string, sha: string)

  predicate Matches(o: Object, u: Upload) { o == Object(u.byteLength, u.contentType, u.sha) }

  // Where a request waits: the store call it makes next.
  datatype Phase =
    | Start                        // reading the row
    | Existing(row: Row)           // the object of a row found at the start
    | RecordFound                  // that object matches: marking the row staged
    | Reserve                      // inserting the row
    | AlreadyStaged                // the object of a row that is staged
    | Put                          // storing the object unless there is one
    | PutLost                      // the put failed: looking whether it is there
    | Verify                       // looking at the object once more
    | Record                       // marking the row staged
    | Raced                        // that conflicted: reading the row again
    | Replied(ok: bool)

  // A finalize checks the row against the checksum the client names, then the object.
  datatype Check = RowCheck(sha: string) | ObjectCheck(sha: string, row: Row) | Accepted(sha: string, row: Row) | Rejected(sha: string)

  datatype Request = Request(upload: Upload, phase: Phase)

  datatype World = World(row: Option<Row>, objects: map<string, Object>, requests: seq<Request>, checks: seq<Check>)

  // What a store call did: it may also fail, having taken effect or not, or report a conflict.
  datatype Outcome = Normal | Fails(takesEffect: bool) | Conflicts

  datatype Event = Arrive(upload: Upload) | Go(request: nat, outcome: Outcome)
                 | AskFinalize(sha: string) | GoCheck(check: nat, outcome: Outcome) | Complete(check: nat)

  // ---------- the stores ----------

  function Inserted(row: Option<Row>, u: Upload): Option<Row> { if row.None? then Some(Row(u, Reserved)) else row }

  function MarkedStaged(row: Option<Row>, u: Upload): Option<Row> {
    if row == Some(Row(u, Reserved)) then Some(Row(u, Staged)) else row
  }

  function Stored(objects: map<string, Object>, u: Upload): map<string, Object> {
    if u.contentType in objects then objects else objects[u.contentType := Object(u.byteLength, u.contentType, u.sha)]
  }

  predicate Present(objects: map<string, Object>, u: Upload) { u.contentType in objects && Matches(objects[u.contentType], u) }

  // ---------- one call of one request ----------

  datatype Effect = Effect(row: Option<Row>, objects: map<string, Object>, phase: Phase)

  // The comparison after the reservation.
  function AfterReservation(u: Upload, r: Row): Phase {
    if r.upload != u then Replied(false) else if r.status == Reserved then Put else AlreadyStaged
  }

  function Call(row: Option<Row>, objects: map<string, Object>, u: Upload, phase: Phase, o: Outcome): Effect {
    var stop := Effect(row, objects, Replied(false));
    match phase
    case Start =>
      if o != Normal then stop
      else Effect(row, objects, if row.None? then Reserve else if row.value.upload != u then Replied(false) else Existing(row.value))
    case Existing(r) =>
      if o != Normal then stop
      else if u.contentType in objects then
        if !Present(objects, u) then stop
        else Effect(row, objects, if r.status == Reserved then RecordFound else Replied(true))
      else if r.status != Reserved then stop
      else Effect(row, objects, AfterReservation(u, r))
    case RecordFound =>
      if o == Normal && row.Some? then Effect(MarkedStaged(row, u), objects, Replied(true))
      else Effect(if o == Fails(true) then MarkedStaged(row, u) else row, objects, Replied(false))
    case Reserve =>
      if o == Normal then
        var next := Inserted(row, u);
        Effect(next, objects, AfterReservation(u, next.value))
      else Effect(if o == Fails(true) then Inserted(row, u) else row, objects, Replied(false))
    case AlreadyStaged =>
      if o != Normal || !Present(objects, u) then stop else Effect(row, objects, Replied(true))
    case Put =>
      if o == Normal then Effect(row, Stored(objects, u), Verify)
      else Effect(row, if o == Fails(true) then Stored(objects, u) else objects, PutLost)
    case PutLost =>
      if o != Normal || !Present(objects, u) then stop else Effect(row, objects, Verify)
    case Verify =>
      if o != Normal || !Present(objects, u) then stop else Effect(row, objects, Record)
    case Record =>
      if o == Normal && row.Some? then Effect(MarkedStaged(row, u), objects, Replied(true))
      else if o == Conflicts || (o == Normal && row.None?) then Effect(row, objects, Raced)
      else Effect(if o == Fails(true) then MarkedStaged(row, u) else row, objects, Replied(false))
    case Raced =>
      if o != Normal || row.None? || row.value.upload != u || row.value.status == Reserved then stop
      else Effect(row, objects, AlreadyStaged)
    case Replied(_) => Effect(row, objects, phase)
  }

  function Checked(w: World, c: Check, o: Outcome): Check {
    match c
    case RowCheck(sha) =>
      if o != Normal || w.row.None? || w.row.value.upload.sha != sha || w.row.value.status != Staged then Rejected(sha)
      else ObjectCheck(sha, w.row.value)
    case ObjectCheck(sha, r) =>
      if o != Normal || !Present(w.objects, r.upload) then Rejected(sha) else Accepted(sha, r)
    case _ => c
  }

  function Apply(w: World, e: Event): World {
    match e
    case Arrive(u) => w.(requests := w.requests + [Request(u, Start)])
    case Go(i, o) =>
      if i >= |w.requests| then w
      else
        var r := w.requests[i];
        var n := Call(w.row, w.objects, r.upload, r.phase, o);
        World(n.row, n.objects, w.requests[i := r.(phase := n.phase)], w.checks)
    case AskFinalize(sha) => w.(checks := w.checks + [RowCheck(sha)])
    case GoCheck(i, o) =>
      if i >= |w.checks| then w else w.(checks := w.checks[i := Checked(w, w.checks[i], o)])
    case Complete(i) =>
      if i < |w.checks| && w.checks[i].Accepted? && w.row.Some? && w.row.value.status == Staged
      then w.(row := Some(w.row.value.(status := Completed))) else w
  }

  function Run(w: World, es: seq<Event>): World
    decreases |es|
  {
    if es == [] then w else Run(Apply(w, es[0]), es[1..])
  }

  // Nothing uploaded yet; the object store may hold anything.
  predicate Init(w: World) { w.row.None? && w.requests == [] && w.checks == [] }

  // ---------- what every run keeps ----------

  predicate RowIs(row: Option<Row>, u: Upload) { row.Some? && row.value.upload == u }

  // What a request in a phase knows; none of it can be undone by another request.
  predicate Knows(row: Option<Row>, objects: map<string, Object>, u: Upload, phase: Phase) {
    match phase
    case Start => true
    case Reserve => true
    case Existing(r) => r.upload == u && RowIs(row, u)
    case RecordFound => RowIs(row, u) && Present(objects, u)
    case AlreadyStaged => RowIs(row, u)
    case Put => RowIs(row, u)
    case PutLost => RowIs(row, u)
    case Verify => RowIs(row, u)
    case Record => RowIs(row, u) && Present(objects, u)
    case Raced => RowIs(row, u)
    case Replied(ok) => ok ==> RowIs(row, u) && Present(objects, u)
  }

  predicate CheckKnows(row: Option<Row>, objects: map<string, Object>, c: Check) {
    match c
    case RowCheck(_) => true
    case ObjectCheck(sha, r) => RowIs(row, r.upload) && r.upload.sha == sha && r.status == Staged
    case Accepted(sha, r) => RowIs(row, r.upload) && Present(objects, r.upload) && r.upload.sha == sha && r.status == Staged
    case Rejected(_) => true
  }

  predicate Inv(w: World) {
    && (forall i | 0 <= i < |w.requests| :: Knows(w.row, w.objects, w.requests[i].upload, w.requests[i].phase))
    && (forall i | 0 <= i < |w.checks| :: CheckKnows(w.row, w.objects, w.checks[i]))
  }

  // The slot's content is decided once, and an object is never replaced.
  predicate Grows(row: Option<Row>, objects: map<string, Object>, next: Option<Row>, more: map<string, Object>) {
    && (row.Some? ==> next.Some? && next.value.upload == row.value.upload)
    && (forall k | k in objects :: k in more && more[k] == objects[k])
  }

  lemma CallKeeps(row: Option<Row>, objects: map<string, Object>, u: Upload, phase: Phase, o: Outcome)
    requires Knows(row, objects, u, phase)
    ensures var n := Call(row, objects, u, phase, o);
            Knows(n.row, n.objects, u, n.phase) && Grows(row, objects, n.row, n.objects)
  {
  }

  lemma KnowledgeLasts(row: Option<Row>, objects: map<string, Object>, next: Option<Row>, more: map<string, Object>, u: Upload, phase: Phase)
    requires Knows(row, objects, u, phase) && Grows(row, objects, next, more)
    ensures Knows(next, more, u, phase)
  {
  }

  lemma StepKeeps(w: World, e: Event)
    requires Inv(w)
    ensures Inv(Apply(w, e)) && Grows(w.row, w.objects, Apply(w, e).row, Apply(w, e).objects)
  {
    var n := Apply(w, e);
    if e.Go? && e.request < |w.requests| {
      var r := w.requests[e.request];
      CallKeeps(w.row, w.objects, r.upload, r.phase, e.outcome);
    }
    forall i | 0 <= i < |w.requests| && !(e.Go? && e.request == i)
      ensures n.requests[i] == w.requests[i] && Knows(n.row, n.objects, n.requests[i].upload, n.requests[i].phase)
    {
      KnowledgeLasts(w.row, w.objects, n.row, n.objects, w.requests[i].upload, w.requests[i].phase);
    }
  }

  lemma {:induction false} RunKeeps(w: World, es: seq<Event>)
    requires Inv(w)
    ensures Inv(Run(w, es)) && Grows(w.row, w.objects, Run(w, es).row, Run(w, es).objects)
    decreases |es|
  {
    if es == [] {
    } else {
      StepKeeps(w, es[0]);
      RunKeeps(Apply(w, es[0]), es[1..]);
    }
  }

  predicate Succeeded(w: World, i: nat) { i < |w.requests| && w.requests[i].phase == Replied(true) }

  // Over every run: all uploads of the slot that are answered with success have one checksum, length and type,
  // and an object with exactly these is stored.
  lemma {:induction false} SuccessesAgree(w: World, es: seq<Event>, i: nat, j: nat)
    requires Init(w) && Succeeded(Run(w, es), i) && Succeeded(Run(w, es), j)
    ensures var n := Run(w, es);
            n.requests[i].upload == n.requests[j].upload && RowIs(n.row, n.requests[i].upload) && Present(n.objects, n.requests[i].upload)
  {
    RunKeeps(w, es);
    var n := Run(w, es);
    assert Knows(n.row, n.objects, n.requests[i].upload, n.requests[i].phase);
    assert Knows(n.row, n.objects, n.requests[j].upload, n.requests[j].phase);
  }

  // A finalize that accepts the slot accepts the checksum every successful upload reported, with its object there.
  lemma {:induction false} FinalizeAcceptsWhatWasStaged(w: World, es: seq<Event>, i: nat, c: nat)
    requires Init(w) && Succeeded(Run(w, es), i) && c < |Run(w, es).checks| && Run(w, es).checks[c].Accepted?
    ensures var n := Run(w, es);
            n.checks[c].row.upload == n.requests[i].upload && Present(n.objects, n.requests[i].upload)
  {
    RunKeeps(w, es);
    var n := Run(w, es);
    assert Knows(n.row, n.objects, n.requests[i].upload, n.requests[i].phase);
    assert CheckKnows(n.row, n.objects, n.checks[c]);
  }

  // What a finalize was asked for stays with it.
  lemma {:induction false} AskedStays(w: World, es: seq<Event>, c: nat)
    requires c < |w.checks|
    ensures c < |Run(w, es).checks| && Run(w, es).checks[c].sha == w.checks[c].sha
    decreases |es|
  {
    if es == [] {
    } else {
      AskedStays(Apply(w, es[0]), es[1..], c);
    }
  }

  // In every run: a finalize that is accepted named the checksum of the row, and that row was staged with its object.
  lemma {:induction false} AcceptedWasNamed(w: World, es: seq<Event>, sha: string, later: seq<Event>)
    requires Init(w)
    ensures var m := Run(w, es); var n := Run(Apply(m, AskFinalize(sha)), later); var c := |m.checks|;
            && c < |n.checks| && n.checks[c].sha == sha
            && (n.checks[c].Accepted? ==>
                  && n.checks[c].row.upload.sha == sha && n.checks[c].row.status == Staged
                  && RowIs(n.row, n.checks[c].row.upload) && Present(n.objects, n.checks[c].row.upload))
  {
    RunKeeps(w, es);
    var m := Run(w, es);
    StepKeeps(m, AskFinalize(sha));
    var asked := Apply(m, AskFinalize(sha));
    AskedStays(asked, later, |m.checks|);
    RunKeeps(asked, later);
    var n := Run(asked, later);
    assert CheckKnows(n.row, n.objects, n.checks[|m.checks|]);
  }

  // Without failures a finalize is accepted exactly when it names the checksum of the row, the row is staged and
  // its object is there.
  lemma FinalizeAcceptsIff(w: World, sha: string)
    ensures var c := |w.checks|; var n := Apply(Apply(Apply(w, AskFinalize(sha)), GoCheck(c, Normal)), GoCheck(c, Normal));
            && n.row == w.row && n.objects == w.objects && |n.checks| == c + 1
            && (n.checks[c].Accepted? <==>
                && w.row.Some? && w.row.value.status == Staged && w.row.value.upload.sha == sha
                && w.row.value.upload.contentType in w.objects
                && w.objects[w.row.value.upload.contentType]
                   == Object(w.row.value.upload.byteLength, w.row.value.upload.contentType, w.row.value.upload.sha))
  {
  }

  // A success is for good: whatever happens later, the same upload sent again can only succeed or fail
  // without changing anything, and any other content for the slot is refused.
  lemma {:induction false} AnsweredForGood(w: World, es: seq<Event>, i: nat, later: seq<Event>, u: Upload)
    requires Init(w) && Succeeded(Run(w, es), i) && u != Run(w, es).requests[i].upload
    ensures var n := Run(Run(w, es), later);
            RowIs(n.row, Run(w, es).requests[i].upload) && Present(n.objects, Run(w, es).requests[i].upload)
            && forall j | 0 <= j < |n.requests| && n.requests[j].upload == u :: !Succeeded(n, j)
  {
    RunKeeps(w, es);
    var m := Run(w, es);
    assert Knows(m.row, m.objects, m.requests[i].upload, m.requests[i].phase);
    RunKeeps(m, later);
    var n := Run(m, later);
    forall j | 0 <= j < |n.requests| && n.requests[j].upload == u ensures !Succeeded(n, j) {
      assert Knows(n.row, n.objects, n.requests[j].upload, n.requests[j].phase);
    }
  }

  // Without failures, a lone upload of a fresh slot, and every retry of it, succeeds.
  lemma RetrySucceeds(w: World, u: Upload)
    requires Inv(w) && (w.row.None? || w.row.value.upload == u) && (u.contentType in w.objects ==> Present(w.objects, u))
    requires w.row.Some? && w.row.value.status != Reserved ==> Present(w.objects, u)
    ensures exists calls: nat :: calls <= 6 && Succeeded(Alone(Apply(w, Arrive(u)), |w.requests|, calls), |w.requests|)
  {
    var n := |w.requests|;
    var w0 := Apply(w, Arrive(u));
    var calls := if w.row.None? then 5 else if !Present(w.objects, u) then 5 else if w.row.value.status == Reserved then 3 else 2;
    var w1 := Apply(w0, Go(n, Normal));
    var w2 := Apply(w1, Go(n, Normal));
    var w3 := Apply(w2, Go(n, Normal));
    var w4 := Apply(w3, Go(n, Normal));
    var w5 := Apply(w4, Go(n, Normal));
    assert Alone(w4, n, 1) == w5;
    assert Alone(w3, n, 2) == w5;
    assert Alone(w2, n, 3) == w5 && Alone(w2, n, 1) == w3;
    assert Alone(w1, n, 4) == w5 && Alone(w1, n, 2) == w3 && Alone(w1, n, 1) == w2;
    assert Alone(w0, n, 5) == w5 && Alone(w0, n, 3) == w3 && Alone(w0, n, 2) == w2;
    assert Succeeded(Alone(w0, n, calls), n);
  }

  // A failure-free upload that is alone is answered with success exactly when the slot is free or has this very
  // content, and the object is this one or can still be stored.
  lemma {:induction false} LoneUploadIff(w: World, u: Upload, calls: nat)
    requires calls >= 6
    ensures var n := |w.requests|; var end := Alone(Apply(w, Arrive(u)), n, calls);
            && |end.requests| == n + 1 && end.requests[n].phase == Replied(Uploadable(w.row, w.objects, u))
            && (Uploadable(w.row, w.objects, u) ==> IsStaged(w.row, end.row, u) && Present(end.objects, u))
  {
    AloneIs(Apply(w, Arrive(u)), |w.requests|, calls);
    if w.row.None? {
      PutsThrough(Effect(Some(Row(u, Reserved)), w.objects, Put), u, calls - 2);
    } else {
      UploadsAgain(w.row, w.objects, u, calls);
    }
  }

  predicate Uploadable(row: Option<Row>, objects: map<string, Object>, u: Upload) {
    && (row.None? || row.value.upload == u)
    && (if u.contentType in objects then objects[u.contentType] == Object(u.byteLength, u.contentType, u.sha)
        else row.None? || row.value.status == Reserved)
  }

  // The row has this content, and is staged if it was not already staged or completed.
  predicate IsStaged(before: Option<Row>, row: Option<Row>, u: Upload) {
    row == Some(Row(u, if before.None? || before.value.status == Reserved then Staged else before.value.status))
  }

  // What was uploaded by itself is accepted by a finalize that names it.
  lemma {:induction false} UploadThenFinalize(w: World, u: Upload, calls: nat)
    requires calls >= 6 && Uploadable(w.row, w.objects, u) && (w.row.Some? ==> w.row.value.status != Completed)
    ensures var m := Alone(Apply(w, Arrive(u)), |w.requests|, calls); var c := |m.checks|;
            Apply(Apply(Apply(m, AskFinalize(u.sha)), GoCheck(c, Normal)), GoCheck(c, Normal)).checks[c] == Accepted(u.sha, Row(u, Staged))
  {
    LoneUploadIff(w, u, calls);
  }

  // The calls of one request by themselves.
  function Calls(e: Effect, u: Upload, calls: nat): Effect
    decreases calls
  {
    if calls == 0 then e else Calls(Call(e.row, e.objects, u, e.phase, Normal), u, calls - 1)
  }

  lemma {:induction false} RepliedStays(e: Effect, u: Upload, calls: nat)
    requires e.phase.Replied?
    ensures Calls(e, u, calls) == e
    decreases calls
  {
    if calls == 0 {
    } else {
      RepliedStays(e, u, calls - 1);
    }
  }

  lemma {:induction false} PutsThrough(e: Effect, u: Upload, calls: nat)
    requires e.phase == Put && e.row == Some(Row(u, Reserved)) && calls >= 4
    ensures Calls(e, u, calls).phase == Replied(u.contentType in e.objects ==> e.objects[u.contentType] == Object(u.byteLength, u.contentType, u.sha))
    ensures Calls(e, u, calls).phase == Replied(true) ==>
              Calls(e, u, calls).row == Some(Row(u, Staged)) && Present(Calls(e, u, calls).objects, u)
  {
    var e1 := Call(e.row, e.objects, u, Put, Normal);
    var e2 := Call(e1.row, e1.objects, u, Verify, Normal);
    assert Calls(e, u, calls) == Calls(e1, u, calls - 1) == Calls(e2, u, calls - 2);
    if e2.phase.Replied? {
      RepliedStays(e2, u, calls - 2);
    } else {
      RepliedStays(Call(e2.row, e2.objects, u, Record, Normal), u, calls - 3);
    }
  }

  // A put whose reply was lost goes on as if it had arrived, when the object is there.
  lemma {:induction false} LostPutGoesOn(row: Option<Row>, objects: map<string, Object>, u: Upload, tookEffect: bool, calls: nat)
    requires row == Some(Row(u, Reserved)) && calls >= 3
    ensures var e := Calls(Call(row, objects, u, Put, Fails(tookEffect)), u, calls);
            && (e.phase == Replied(true) <==> Present(if tookEffect then Stored(objects, u) else objects, u))
            && (e.phase == Replied(true) ==> e.row == Some(Row(u, Staged)))
  {
    var e1 := Call(row, objects, u, Put, Fails(tookEffect));
    var e2 := Call(e1.row, e1.objects, u, PutLost, Normal);
    assert Calls(e1, u, calls) == Calls(e2, u, calls - 1);
    if e2.phase.Replied? {
      RepliedStays(e2, u, calls - 1);
    } else {
      var e3 := Call(e2.row, e2.objects, u, Verify, Normal);
      assert Calls(e2, u, calls - 1) == Calls(e3, u, calls - 2);
      RepliedStays(Call(e3.row, e3.objects, u, Record, Normal), u, calls - 3);
    }
  }

  // An upload that loses the race to mark the row succeeds all the same, when the row is staged with its object there.
  lemma {:induction false} LostRaceGoesOn(row: Option<Row>, objects: map<string, Object>, u: Upload, calls: nat)
    requires calls >= 2
    ensures var e := Calls(Call(row, objects, u, Record, Conflicts), u, calls);
            && e.row == row && e.objects == objects
            && e.phase == Replied(RowIs(row, u) && row.value.status != Reserved && Present(objects, u))
  {
    var e1 := Call(row, objects, u, Record, Conflicts);
    var e2 := Call(row, objects, u, Raced, Normal);
    assert Calls(e1, u, calls) == Calls(e2, u, calls - 1);
    if e2.phase.Replied? {
      RepliedStays(e2, u, calls - 1);
    } else {
      RepliedStays(Call(row, objects, u, AlreadyStaged, Normal), u, calls - 2);
    }
  }

  lemma {:induction false} UploadsAgain(row: Option<Row>, objects: map<string, Object>, u: Upload, calls: nat)
    requires row.Some? && calls >= 6
    ensures var e := Calls(Effect(row, objects, Start), u, calls);
            && e.phase == Replied(Uploadable(row, objects, u))
            && (Uploadable(row, objects, u) ==> IsStaged(row, e.row, u) && Present(e.objects, u))
  {
    if row.value.upload != u {
      RepliedStays(Effect(row, objects, Replied(false)), u, calls - 1);
    } else {
      FindsAgain(row.value, objects, u, calls - 1);
    }
  }

  lemma {:induction false} FindsAgain(r: Row, objects: map<string, Object>, u: Upload, calls: nat)
    requires r.upload == u && calls >= 5
    ensures var e := Calls(Effect(Some(r), objects, Existing(r)), u, calls);
            && e.phase == Replied(Uploadable(Some(r), objects, u))
            && (Uploadable(Some(r), objects, u) ==> IsStaged(Some(r), e.row, u) && Present(e.objects, u))
  {
    var e := Call(Some(r), objects, u, Existing(r), Normal);
    if e.phase.Replied? {
      RepliedStays(e, u, calls - 1);
    } else if e.phase.RecordFound? {
      RepliedStays(Call(e.row, e.objects, u, RecordFound, Normal), u, calls - 2);
    } else {
      PutsThrough(e, u, calls - 1);
    }
  }

  lemma {:induction false} AloneIs(w: World, n: nat, calls: nat)
    requires n < |w.requests|
    ensures var r := w.requests[n]; var v := Alone(w, n, calls); var e := Calls(Effect(w.row, w.objects, r.phase), r.upload, calls);
            |v.requests| == |w.requests| && v.row == e.row && v.objects == e.objects && v.requests[n] == Request(r.upload, e.phase)
    decreases calls
  {
    if calls == 0 {
    } else {
      AloneIs(Apply(w, Go(n, Normal)), n, calls - 1);
    }
  }

  function Alone(w: World, i: nat, calls: nat): World
    decreases calls
  {
    if calls == 0 then w else Alone(Apply(w, Go(i, Normal)), i, calls - 1)
  }
}
