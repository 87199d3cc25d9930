/**
 Preparing an output in a background tab and bringing it to the front: the output run, its cancellation and the
 manual activation, interleaved at every await with the page's readiness and the passing of the deadline
 (apps/extension/editor/editor.js:503-513,532-669,671-782, apps/extension/background/service-worker.js:823-850).
 */
module Activation {
  import opened Basics

  datatype TabState = NoTab | Provisional | NavigatingTab | Prepared | Activating | Closed

  datatype Policy = Auto | Manual | Cancelled

  // The stored ready record of a launch.
  datatype Record = Record(policy: Policy, pageReady: bool, activated: bool)

  datatype Run = Run(cancelled: bool, tab: TabState, record: Option<Record>)

  // Where a task of a run awaits.
  datatype PC =
    | Begin              // the draft lock, pruning, looking for a recoverable handoff
    | Creating           // chrome.tabs.create
    | ReadingLatest      // the handoff record, then the ready lock
    | Locked             // inside the ready lock, before the ready record is written
    | WritingRecord
    | Navigating         // chrome.tabs.update to the page, inactive
    | Polling            // waiting for the page
    | WaitingLock(policy: Policy)   // activateHandoffTab, before the lock
    | ReadingRecord(policy: Policy)
    | Fronting(policy: Policy)      // chrome.tabs.update(active: true)
    | RereadingRecord(policy: Policy)
    | WritingActivated(policy: Policy)
    | OfferingManual     // the policy is being set to manual
    | PressingManual     // the same after a click on the activation button
    | CleaningUp
    | Ended

  datatype Task = Task(run: nat, output: bool, pc: PC)

  // `fronts` lists the runs in the order of the calls that bring a tab to the front.
  datatype World = World(runs: seq<Run>, active: Option<nat>, pending: Option<nat>, tasks: seq<Task>, fronts: seq<nat>)

  datatype Outcome = Ok(late: bool) | Error

  datatype Event = Start | Cancel | Click | Go(task: nat, outcome: Outcome)
                 | PageReady(run: nat, late: bool) | WritePolicyCancelled(run: nat) | CloseTab(run: nat)

  predicate IsActive(w: World, i: nat) { i < |w.runs| && !w.runs[i].cancelled && i + 1 == |w.runs| && w.active == Some(i) }

  predicate Live(t: Task) { !t.pc.Ended? }

  predicate AtFront(pc: PC) { pc.Fronting? || pc.RereadingRecord? || pc.WritingActivated? }

  // ---------- one await of one task ----------

  datatype Effect = Effect(run: Run, active: Option<nat>, pending: Option<nat>, pc: PC, fronts: bool)

  function Throw(w: World, t: Task, r: Run): Effect
    requires t.run < |w.runs|
  {
    var tab := if r.tab == Activating then Prepared else r.tab;
    if t.output then Effect(r.(tab := tab), w.active, w.pending, CleaningUp, false)
    else if IsActive(w, t.run) then Effect(r.(tab := tab), None, None, Ended, false)
    else Effect(r.(tab := tab), w.active, w.pending, Ended, false)
  }

  function Move(w: World, r: Run, pc: PC): Effect { Effect(r, w.active, w.pending, pc, false) }

  // The activation did not happen: the automatic one may turn into an offer, the manual one just returns.
  function NotActivated(w: World, t: Task, r: Run, expired: bool): Effect
    requires t.run < |w.runs|
  {
    if !t.output then Move(w, r, Ended)
    else if expired && IsActive(w, t.run) then Move(w, r, OfferingManual)
    else Throw(w, t, r)
  }

  function Step(w: World, t: Task, o: Outcome): Effect
    requires t.run < |w.runs|
  {
    var r := w.runs[t.run];
    var ok := IsActive(w, t.run);
    match t.pc
    case Begin => if o.Error? || !ok then Throw(w, t, r) else Move(w, r, Creating)
    case Creating =>
      if o.Error? then Throw(w, t, r)
      else
        var p := r.(tab := Provisional);
        if !ok then Throw(w, t, p) else Move(w, p, ReadingLatest)
    case ReadingLatest => if o.Error? || !ok then Throw(w, t, r) else Move(w, r, Locked)
    case Locked => if o.Error? || !ok then Throw(w, t, r) else Move(w, r, WritingRecord)
    case WritingRecord =>
      if o.Error? then Throw(w, t, r)
      else
        var n := r.(record := Some(Record(Auto, false, false)));
        if !ok then Throw(w, t, n) else Move(w, n.(tab := NavigatingTab), Navigating)
    case Navigating =>
      if o.Error? then Throw(w, t, r.(tab := Provisional))
      else if !ok then Throw(w, t, r.(tab := Prepared)) else Move(w, r.(tab := Prepared), Polling)
    case Polling =>
      if o.Error? || !ok then Throw(w, t, r)
      else if r.record.Some? && r.record.value.pageReady then Move(w, r, WaitingLock(Auto))
      else if o.late then Move(w, r, OfferingManual) else Move(w, r, Polling)
    case WaitingLock(p) =>
      if o.Error? then Throw(w, t, r)
      else if !ok then NotActivated(w, t, r, false) else Move(w, r, ReadingRecord(p))
    case ReadingRecord(p) =>
      if o.Error? then Throw(w, t, r)
      else if !ok || r.record.None? || r.record.value.policy != p then NotActivated(w, t, r, false)
      else if p == Auto && (!r.record.value.pageReady || o.late) then NotActivated(w, t, r, o.late)
      else Effect(r.(tab := Activating), w.active, w.pending, Fronting(p), true)
    case Fronting(p) =>
      if o.Error? then Throw(w, t, r)
      else if !ok then NotActivated(w, t, r.(tab := Prepared), false) else Move(w, r, RereadingRecord(p))
    case RereadingRecord(p) =>
      if o.Error? then Throw(w, t, r)
      else if r.record.None? || r.record.value.policy != p then NotActivated(w, t, r.(tab := Prepared), false)
      else Move(w, r, WritingActivated(p))
    case WritingActivated(_) =>
      if o.Error? || r.record.None? then Throw(w, t, r)
      else Effect(r.(tab := Prepared, record := Some(r.record.value.(activated := true))), None, None, Ended, false)
    case OfferingManual =>
      if o.Error? || !ok then Throw(w, t, r)
      else Effect(r.(record := WithPolicy(r.record, Manual)), w.active, Some(t.run), Ended, false)
    case PressingManual =>
      if o.Error? then Throw(w, t, r)
      else if !ok || w.pending != Some(t.run) then Move(w, r, Ended)
      else Move(w, r.(record := WithPolicy(r.record, Manual)), WaitingLock(Manual))
    case CleaningUp =>
      var n := if r.tab == Provisional && o.Ok? then r.(tab := Closed) else r;
      Effect(n, if ok then None else w.active, w.pending, Ended, false)
    case Ended => Move(w, r, Ended)
  }

  function WithPolicy(r: Option<Record>, p: Policy): Option<Record> {
    if r.None? then None else Some(r.value.(policy := p))
  }

  // ---------- the machine ----------

  function ActiveTab(w: World): TabState {
    if w.active.Some? && w.active.value < |w.runs| then w.runs[w.active.value].tab else NoTab
  }

  // cancelHandoffRun: nothing to cancel, or refused once the call has begun.
  function CancelActive(w: World): World {
    if w.active.None? || w.active.value >= |w.runs| || w.runs[w.active.value].cancelled || ActiveTab(w) == Activating then w
    else World(w.runs[w.active.value := w.runs[w.active.value].(cancelled := true)], None, w.pending, w.tasks, w.fronts)
  }

  predicate OutputInFlight(w: World) { exists a | 0 <= a < |w.tasks| :: w.tasks[a].output && Live(w.tasks[a]) }

  predicate Busy(w: World, i: nat) { exists a | 0 <= a < |w.tasks| :: w.tasks[a].run == i && Live(w.tasks[a]) }

  function Apply(w: World, e: Event): World {
    match e
    case Start =>
      if OutputInFlight(w) || ActiveTab(w) == Activating then w
      else
        var c := CancelActive(w);
        World(c.runs + [Run(false, NoTab, None)], Some(|c.runs|), None, c.tasks + [Task(|c.runs|, true, Begin)], c.fronts)
    case Cancel => CancelActive(w)
    case Click =>
      // the button is shown when a manual activation is offered, and disabled while its task runs
      if w.active.None? || !IsActive(w, w.active.value) || w.pending != w.active || Busy(w, w.active.value) then w
      else w.(tasks := w.tasks + [Task(w.active.value, false, PressingManual)])
    case Go(a, o) =>
      if a >= |w.tasks| || w.tasks[a].run >= |w.runs| then w
      else
        var t := w.tasks[a];
        var n := Step(w, t, o);
        World(w.runs[t.run := n.run], n.active, n.pending, w.tasks[a := t.(pc := n.pc)], if n.fronts then w.fronts + [t.run] else w.fronts)
    case PageReady(i, late) =>
      // a cancelled, manual, late or repeated message changes nothing
      if i >= |w.runs| || w.runs[i].record.None? || w.runs[i].record.value.policy != Auto || late || w.runs[i].record.value.pageReady then w
      else w.(runs := w.runs[i := w.runs[i].(record := Some(w.runs[i].record.value.(pageReady := true, activated := false)))])
    case WritePolicyCancelled(i) =>
      if i >= |w.runs| || !w.runs[i].cancelled then w
      else w.(runs := w.runs[i := w.runs[i].(record := WithPolicy(w.runs[i].record, Cancelled))])
    case CloseTab(i) =>
      if i >= |w.runs| || !w.runs[i].cancelled || w.runs[i].tab != Provisional then w
      else w.(runs := w.runs[i := w.runs[i].(tab := Closed)])
  }

  function After(w: World, es: seq<Event>): World
    decreases |es|
  {
    if es == [] then w else After(Apply(w, es[0]), es[1..])
  }

  predicate Init(w: World) { w == World([], None, None, [], []) }

  // ---------- what every interleaving keeps ----------

  predicate TaskOk(w: World, t: Task) {
    t.run < |w.runs| && (Live(t) ==> (AtFront(t.pc) <==> w.runs[t.run].tab == Activating)) && (t.output || t.pc.Ended? || t.pc.PressingManual?
      || t.pc.WaitingLock? || t.pc.ReadingRecord? || AtFront(t.pc))
  }

  predicate OneTaskPerRun(w: World) {
    forall a, b | 0 <= a < b < |w.tasks| && Live(w.tasks[a]) && Live(w.tasks[b]) :: w.tasks[a].run != w.tasks[b].run
  }

  // A run whose tab is being brought to the front is the active one, and has the task that does it.
  predicate FrontOk(w: World, i: nat) {
    i < |w.runs| && (w.runs[i].tab == Activating ==> IsActive(w, i) && Busy(w, i))
  }

  predicate ActiveOk(w: World) { w.active.Some? ==> w.active.value + 1 == |w.runs| && !w.runs[w.active.value].cancelled }

  predicate Inv(w: World) {
    && (forall a | 0 <= a < |w.tasks| :: TaskOk(w, w.tasks[a]))
    && OneTaskPerRun(w)
    && (forall i | 0 <= i < |w.runs| :: FrontOk(w, i))
    && ActiveOk(w)
  }

  // What one await does to its own run: the front call is made only for the active run, the run is at the front
  // exactly while its task is, the flag of cancellation is untouched, and nobody else becomes active.
  lemma StepIs(w: World, t: Task, o: Outcome)
    requires TaskOk(w, t) && Live(t) && ActiveOk(w) && FrontOk(w, t.run)
    ensures var n := Step(w, t, o);
            && (n.fronts ==> IsActive(w, t.run) && t.pc.ReadingRecord? && n.pc.Fronting?)
            && (AtFront(n.pc) <==> n.run.tab == Activating)
            && n.run.cancelled == w.runs[t.run].cancelled
            && (n.active == w.active || (n.active.None? && IsActive(w, t.run)))
            && (AtFront(n.pc) ==> n.active == w.active && IsActive(w, t.run))
            && (t.output || n.pc.Ended? || n.pc.WaitingLock? || n.pc.ReadingRecord? || AtFront(n.pc))
  {
  }

  lemma CancelKeeps(w: World)
    requires Inv(w)
    ensures Inv(CancelActive(w)) && CancelActive(w).tasks == w.tasks && |CancelActive(w).runs| == |w.runs|
    ensures ActiveTab(w) != Activating ==> CancelActive(w).active.None? || CancelActive(w) == w
    ensures forall i | 0 <= i < |w.runs| :: w.runs[i].cancelled ==> CancelActive(w).runs[i].cancelled
  {
    var n := CancelActive(w);
    forall i | 0 <= i < |n.runs| ensures FrontOk(n, i) {
      assert FrontOk(w, i);
      if n != w && Busy(w, i) { assert Busy(n, i); }
    }
    forall a | 0 <= a < |n.tasks| ensures TaskOk(n, n.tasks[a]) { assert TaskOk(w, w.tasks[a]); }
  }

  lemma NobodyAtFront(w: World, i: nat)
    requires Inv(w) && ActiveTab(w) != Activating && i < |w.runs|
    ensures w.runs[i].tab != Activating
  {
    assert FrontOk(w, i);
  }

  lemma StartKeeps(w: World)
    requires Inv(w)
    ensures Inv(Apply(w, Start))
  {
    var n := Apply(w, Start);
    if n != w {
      CancelKeeps(w);
      var c := CancelActive(w);
      forall i | 0 <= i < |n.runs| ensures FrontOk(n, i) {
        if i < |w.runs| {
          NobodyAtFront(w, i);
          assert n.runs[i].tab == w.runs[i].tab;
        }
      }
      forall a | 0 <= a < |n.tasks| ensures TaskOk(n, n.tasks[a]) {
        if a < |w.tasks| { assert TaskOk(c, c.tasks[a]); }
      }
      forall a | 0 <= a < |w.tasks| ensures n.tasks[a].run != |w.runs| { assert TaskOk(w, w.tasks[a]); }
    }
  }

  lemma ClickKeeps(w: World)
    requires Inv(w)
    ensures Inv(Apply(w, Click))
  {
    var n := Apply(w, Click);
    if n != w {
      var i := w.active.value;
      assert FrontOk(w, i);
      forall a | 0 <= a < |n.tasks| ensures TaskOk(n, n.tasks[a]) {
        if a < |w.tasks| { assert TaskOk(w, w.tasks[a]); }
      }
      forall j | 0 <= j < |n.runs| ensures FrontOk(n, j) {
        assert FrontOk(w, j);
        if Busy(w, j) {
          var a :| 0 <= a < |w.tasks| && w.tasks[a].run == j && Live(w.tasks[a]);
          assert n.tasks[a] == w.tasks[a];
        }
      }
    }
  }

  // Only the run's own task moves it to and from the front.
  lemma GoKeeps(w: World, a: nat, o: Outcome)
    requires Inv(w) && a < |w.tasks|
    ensures Inv(Apply(w, Go(a, o)))
  {
    var t := w.tasks[a];
    assert TaskOk(w, t) && FrontOk(w, t.run);
    var n := Apply(w, Go(a, o));
    if !Live(t) {
      assert n.runs == w.runs && n.tasks == w.tasks;
    } else {
      StepIs(w, t, o);
      GoTasks(w, a, o);
      GoFronts(w, a, o);
    }
  }

  lemma GoTasks(w: World, a: nat, o: Outcome)
    requires Inv(w) && a < |w.tasks| && Live(w.tasks[a])
    ensures var n := Apply(w, Go(a, o)); OneTaskPerRun(n) && forall b | 0 <= b < |n.tasks| :: TaskOk(n, n.tasks[b])
  {
    var t := w.tasks[a];
    assert TaskOk(w, t) && FrontOk(w, t.run);
    StepIs(w, t, o);
    var n := Apply(w, Go(a, o));
    forall b | 0 <= b < |n.tasks| ensures TaskOk(n, n.tasks[b]) {
      assert TaskOk(w, w.tasks[b]);
    }
  }

  lemma GoFronts(w: World, a: nat, o: Outcome)
    requires Inv(w) && a < |w.tasks| && Live(w.tasks[a])
    ensures var n := Apply(w, Go(a, o)); ActiveOk(n) && forall i | 0 <= i < |n.runs| :: FrontOk(n, i)
  {
    var t := w.tasks[a];
    assert TaskOk(w, t) && FrontOk(w, t.run);
    StepIs(w, t, o);
    var n := Apply(w, Go(a, o));
    forall i | 0 <= i < |n.runs| ensures FrontOk(n, i) {
      assert FrontOk(w, i);
      if i == t.run {
        if n.runs[i].tab == Activating { assert n.tasks[a].run == i && Live(n.tasks[a]); }
      } else if w.runs[i].tab == Activating {
        assert !IsActive(w, t.run);
        var b :| 0 <= b < |w.tasks| && w.tasks[b].run == i && Live(w.tasks[b]);
        assert n.tasks[b] == w.tasks[b];
      }
    }
  }

  // A change of a run that leaves its tab away from the front and its flag alone.
  lemma RunKeeps(w: World, i: nat, r: Run)
    requires Inv(w) && i < |w.runs| && r.cancelled == w.runs[i].cancelled
    requires (r.tab == Activating) == (w.runs[i].tab == Activating)
    ensures Inv(w.(runs := w.runs[i := r]))
  {
    var n := w.(runs := w.runs[i := r]);
    forall j | 0 <= j < |n.runs| ensures FrontOk(n, j) {
      assert FrontOk(w, j);
      if Busy(w, j) { assert Busy(n, j); }
    }
    forall a | 0 <= a < |n.tasks| ensures TaskOk(n, n.tasks[a]) { assert TaskOk(w, w.tasks[a]); }
  }

  lemma EventKeeps(w: World, e: Event)
    requires Inv(w)
    ensures Inv(Apply(w, e))
  {
    match e
    case Start => StartKeeps(w);
    case Cancel => CancelKeeps(w);
    case Click => ClickKeeps(w);
    case Go(a, o) =>
      if a < |w.tasks| { GoKeeps(w, a, o); }
    case PageReady(i, late) =>
      if Apply(w, e) != w { RunKeeps(w, i, Apply(w, e).runs[i]); }
    case WritePolicyCancelled(i) =>
      if Apply(w, e) != w { RunKeeps(w, i, Apply(w, e).runs[i]); }
    case CloseTab(i) =>
      if Apply(w, e) != w { RunKeeps(w, i, Apply(w, e).runs[i]); }
  }

  lemma {:induction false} AfterKeeps(w: World, es: seq<Event>)
    requires Inv(w)
    ensures Inv(After(w, es))
    decreases |es|
  {
    if es == [] {
    } else {
      EventKeeps(w, es[0]);
      AfterKeeps(Apply(w, es[0]), es[1..]);
    }
  }

  // ---------- what a user may rely on ----------

  // One event brings at most one tab to the front, that of the run active at that moment.
  lemma FrontsOnlyTheActive(w: World, e: Event)
    requires Inv(w)
    ensures var n := Apply(w, e); n.fronts == w.fronts || (w.active.Some? && IsActive(w, w.active.value) && n.fronts == w.fronts + [w.active.value])
  {
    if e.Go? && e.task < |w.tasks| {
      var t := w.tasks[e.task];
      assert TaskOk(w, t) && FrontOk(w, t.run);
      if Live(t) { StepIs(w, t, e.outcome); }
    }
  }

  // A run that is cancelled, or that a later run has replaced, stays out of the front.
  predicate Over(w: World, i: nat) { i < |w.runs| && (w.runs[i].cancelled || i + 1 < |w.runs|) }

  lemma OverStays(w: World, e: Event, i: nat)
    requires Inv(w) && Over(w, i)
    ensures Over(Apply(w, e), i)
  {
    if e.Go? && e.task < |w.tasks| {
      var t := w.tasks[e.task];
      assert TaskOk(w, t) && FrontOk(w, t.run);
      if Live(t) { StepIs(w, t, e.outcome); }
    }
  }

  lemma {:induction false} OverNeverFronts(w: World, es: seq<Event>, i: nat)
    requires Inv(w) && Over(w, i)
    ensures w.fronts <= After(w, es).fronts && i !in After(w, es).fronts[|w.fronts|..]
    decreases |es|
  {
    if es == [] {
    } else {
      var n := Apply(w, es[0]);
      EventKeeps(w, es[0]);
      FrontsOnlyTheActive(w, es[0]);
      OverStays(w, es[0], i);
      OverNeverFronts(n, es[1..], i);
      assert n.fronts == w.fronts || n.fronts[|w.fronts|..] == [w.active.value];
      NotAmongThese(w.fronts, n.fronts, After(w, es).fronts, i);
    }
  }

  lemma NotAmongThese(a: seq<nat>, b: seq<nat>, c: seq<nat>, i: nat)
    requires a <= b <= c && i !in b[|a|..] && i !in c[|b|..]
    ensures a <= c && i !in c[|a|..]
  {
    assert c[|a|..] == b[|a|..] + c[|b|..];
  }

  // In every interleaving: once a run is cancelled, or another one started, its tab is never brought to the front.
  lemma {:induction false} CancelledNeverFronts(w: World, es: seq<Event>, later: seq<Event>, i: nat)
    requires Init(w) && Over(After(w, es), i)
    ensures var m := After(w, es);
            var fronts := After(m, later).fronts;
            m.fronts <= fronts && i !in fronts[|m.fronts|..]
  {
    AfterKeeps(w, es);
    var m := After(w, es);
    OverNeverFronts(m, later, i);
  }

  // While the call is under way the run stays the active one, and neither a cancellation nor a new output gets in.
  lemma {:induction false} FrontingIsUndisturbed(w: World, es: seq<Event>, a: nat)
    requires Init(w) && a < |After(w, es).tasks| && AtFront(After(w, es).tasks[a].pc)
    ensures var m := After(w, es);
            && IsActive(m, m.tasks[a].run) && Apply(m, Cancel) == m && Apply(m, Start) == m
            && forall b | 0 <= b < |m.tasks| && AtFront(m.tasks[b].pc) :: b == a
  {
    AfterKeeps(w, es);
    var m := After(w, es);
    var i := m.tasks[a].run;
    assert TaskOk(m, m.tasks[a]) && FrontOk(m, i);
    forall b | 0 <= b < |m.tasks| && AtFront(m.tasks[b].pc) ensures b == a {
      assert TaskOk(m, m.tasks[b]) && FrontOk(m, m.tasks[b].run);
    }
  }

  // A cancellation that is not refused takes effect at once: the run is cancelled and nothing is active.
  lemma {:induction false} CancelTakesEffect(w: World, es: seq<Event>)
    requires Init(w) && After(w, es).active.Some? && ActiveTab(After(w, es)) != Activating
    ensures var m := After(w, es); var n := Apply(m, Cancel);
            m.active.value < |m.runs| && n.runs[m.active.value].cancelled && n.active.None? && Over(n, m.active.value)
  {
    AfterKeeps(w, es);
  }

  // ---------- when a tab comes to the front ----------

  // A call to bring the tab to the front is made in exactly one place: the task has read the record inside the lock,
  // its run is neither cancelled nor replaced, the record still has the policy the task goes by, and an automatic
  // activation finds the page ready before the deadline.
  lemma FrontsIff(w: World, e: Event)
    requires Inv(w)
    ensures var n := Apply(w, e);
            if e.Go? && e.task < |w.tasks| && MayFront(w, w.tasks[e.task], e.outcome) then n.fronts == w.fronts + [w.tasks[e.task].run]
            else n.fronts == w.fronts
  {
    if e.Go? && e.task < |w.tasks| { assert TaskOk(w, w.tasks[e.task]); }
  }

  predicate MayFront(w: World, t: Task, o: Outcome) {
    && t.pc.ReadingRecord? && o.Ok?
    && t.run < |w.runs| && !w.runs[t.run].cancelled && t.run == |w.runs| - 1 && w.active == Some(t.run)
    && var record := w.runs[t.run].record;
       && record.Some? && record.value.policy == t.pc.policy
       && (t.pc.policy == Auto ==> record.value.pageReady && !o.late)
  }

  // What the await of an active run's task leaves.
  lemma Moves(w: World, a: nat, o: Outcome)
    requires a < |w.tasks| && IsActive(w, w.tasks[a].run) && Step(w, w.tasks[a], o).run.cancelled == false
    ensures var t := w.tasks[a]; var e := Step(w, t, o); var n := Apply(w, Go(a, o));
            && |n.runs| == |w.runs| && n.runs[t.run] == e.run && |n.tasks| == |w.tasks| && n.tasks[a] == t.(pc := e.pc)
            && n.active == e.active && n.pending == e.pending && n.fronts == (if e.fronts then w.fronts + [t.run] else w.fronts)
            && (e.active == w.active ==> IsActive(n, t.run))
            && (forall b | 0 <= b < |w.tasks| && b != a :: n.tasks[b] == w.tasks[b])
  {
  }

  // The one task at work for the active run.
  predicate AtWork(w: World, a: nat, i: nat, r: Run, output: bool, pc: PC) {
    a < |w.tasks| && IsActive(w, i) && w.tasks[a] == Task(i, output, pc) && w.runs[i] == r
  }

  // Its calls come back in time, one after the other.
  function Goes(w: World, a: nat, awaits: nat): World
    decreases awaits
  {
    if awaits == 0 then w else Goes(Apply(w, Go(a, Ok(false))), a, awaits - 1)
  }

  lemma GoesOn(w: World, a: nat, i: nat, r: Run, output: bool, pc: PC, awaits: nat) returns (n: World)
    requires AtWork(w, a, i, r, output, pc) && awaits > 0
    requires var e := Step(w, w.tasks[a], Ok(false)); e.active == w.active && !e.run.cancelled && !e.fronts && e.pending == w.pending
    ensures n == Apply(w, Go(a, Ok(false))) && Goes(w, a, awaits) == Goes(n, a, awaits - 1)
    ensures var e := Step(w, w.tasks[a], Ok(false)); AtWork(n, a, i, e.run, output, e.pc)
    ensures n.fronts == w.fronts && n.pending == w.pending && |n.tasks| == |w.tasks|
  {
    n := Apply(w, Go(a, Ok(false)));
    Moves(w, a, Ok(false));
  }

  const PREPARED := Run(false, Prepared, Some(Record(Auto, false, false)))

  // A new output, when nothing fails, has its tab prepared in the background and then waits for the page.
  lemma OutputIsPrepared(w: World, more: nat) returns (n: World)
    requires !OutputInFlight(w) && ActiveTab(w) != Activating && ActiveOk(w)
    ensures var i := |w.runs|; var a := |w.tasks|;
            && Goes(Apply(w, Start), a, 6 + more) == Goes(n, a, more)
            && AtWork(n, a, i, PREPARED, true, Polling) && n.fronts == w.fronts && n.pending == None && |n.tasks| == a + 1
  {
    var i, a := |w.runs|, |w.tasks|;
    n := Apply(w, Start);
    assert AtWork(n, a, i, Run(false, NoTab, None), true, Begin);
    n := TabIsCreated(n, a, i, 4 + more);
    n := TabIsNavigated(n, a, i, more);
  }

  lemma TabIsCreated(w: World, a: nat, i: nat, more: nat) returns (n: World)
    requires AtWork(w, a, i, Run(false, NoTab, None), true, Begin)
    ensures Goes(w, a, 2 + more) == Goes(n, a, more) && AtWork(n, a, i, Run(false, Provisional, None), true, ReadingLatest)
    ensures n.fronts == w.fronts && n.pending == w.pending && |n.tasks| == |w.tasks|
  {
    n := GoesOn(w, a, i, Run(false, NoTab, None), true, Begin, 2 + more);
    n := GoesOn(n, a, i, Run(false, NoTab, None), true, Creating, 1 + more);
  }

  lemma TabIsNavigated(w: World, a: nat, i: nat, more: nat) returns (n: World)
    requires AtWork(w, a, i, Run(false, Provisional, None), true, ReadingLatest)
    ensures Goes(w, a, 4 + more) == Goes(n, a, more) && AtWork(n, a, i, PREPARED, true, Polling)
    ensures n.fronts == w.fronts && n.pending == w.pending && |n.tasks| == |w.tasks|
  {
    n := GoesOn(w, a, i, Run(false, Provisional, None), true, ReadingLatest, 4 + more);
    n := GoesOn(n, a, i, Run(false, Provisional, None), true, Locked, 3 + more);
    n := GoesOn(n, a, i, Run(false, Provisional, None), true, WritingRecord, 2 + more);
    n := GoesOn(n, a, i, Run(false, NavigatingTab, Some(Record(Auto, false, false))), true, Navigating, 1 + more);
  }

  // Once it is brought to the front the record says so, and the run is no longer the active one.
  predicate Delivered(w: World, a: nat, i: nat, policy: Policy) {
    && a < |w.tasks| && w.tasks[a].pc == Ended && i < |w.runs| && w.active == None && w.pending == None
    && w.runs[i].tab == Prepared && w.runs[i].record.Some? && w.runs[i].record.value.policy == policy && w.runs[i].record.value.activated
  }

  lemma {:induction false} Fronts(w: World, a: nat, i: nat, r: Run, output: bool, policy: Policy)
    requires AtWork(w, a, i, r, output, WaitingLock(policy)) && r.record.Some? && r.record.value.policy == policy
    requires policy == Auto ==> r.record.value.pageReady
    ensures var n := Goes(w, a, 5); Delivered(n, a, i, policy) && n.fronts == w.fronts + [i]
  {
    var n := GoesOn(w, a, i, r, output, WaitingLock(policy), 5);
    Moves(n, a, Ok(false));
    var m := Apply(n, Go(a, Ok(false)));
    assert Goes(n, a, 4) == Goes(m, a, 3);
    assert AtWork(m, a, i, r.(tab := Activating), output, Fronting(policy)) && m.fronts == w.fronts + [i];
    IsFronted(m, a, i, r.(tab := Activating), output, policy);
  }

  lemma {:induction false} IsFronted(w: World, a: nat, i: nat, r: Run, output: bool, policy: Policy)
    requires AtWork(w, a, i, r, output, Fronting(policy)) && r.record.Some? && r.record.value.policy == policy
    ensures var n := Goes(w, a, 3); Delivered(n, a, i, policy) && n.fronts == w.fronts
  {
    var k := GoesOn(w, a, i, r, output, Fronting(policy), 3);
    k := GoesOn(k, a, i, r, output, RereadingRecord(policy), 2);
    Moves(k, a, Ok(false));
    assert Goes(k, a, 1) == Apply(k, Go(a, Ok(false)));
  }

  // A page that reports in time is brought to the front by itself.
  lemma {:induction false} ReadyPageIsFronted(w: World, a: nat, i: nat)
    requires AtWork(w, a, i, PREPARED, true, Polling)
    ensures var n := Goes(Apply(w, PageReady(i, false)), a, 6); Delivered(n, a, i, Auto) && n.fronts == w.fronts + [i]
  {
    var m := Apply(w, PageReady(i, false));
    var ready := PREPARED.(record := Some(Record(Auto, true, false)));
    assert AtWork(m, a, i, ready, true, Polling);
    var n := GoesOn(m, a, i, ready, true, Polling, 6);
    Fronts(n, a, i, ready, true, Auto);
  }

  // A message that comes too late, or for a run that is not waiting for one, changes nothing.
  lemma PageReadyIff(w: World, i: nat, late: bool)
    ensures Apply(w, PageReady(i, late)) != w ==>
              !late && i < |w.runs| && w.runs[i].record.Some? && w.runs[i].record.value.policy == Auto && !w.runs[i].record.value.pageReady
  {
  }

  // An automatic activation that finds the deadline past, or waits for the page until then, is offered for a click
  // instead: the tab stays where it is and the record's policy becomes manual.
  lemma LateIsOffered(w: World, a: nat, i: nat, r: Run, pc: PC, o: Outcome)
    requires AtWork(w, a, i, r, true, pc) && r.record.Some? && o.Ok?
    requires (pc == ReadingRecord(Auto) && r.record.value.policy == Auto) || (pc == Polling && !r.record.value.pageReady)
    ensures var m := Apply(w, Go(a, Ok(true))); var n := Apply(m, Go(a, o));
            && AtWork(m, a, i, r, true, OfferingManual) && m.fronts == w.fronts
            && AtWork(n, a, i, r.(record := Some(r.record.value.(policy := Manual))), true, Ended)
            && n.fronts == w.fronts && n.pending == Some(i)
  {
    Moves(w, a, Ok(true));
    Moves(Apply(w, Go(a, Ok(true))), a, o);
  }

  // A click on the button then brings it to the front, however late it is.
  lemma ClickFronts(w: World, i: nat, r: Run)
    requires IsActive(w, i) && w.runs[i] == r && r.record.Some? && w.pending == Some(i) && !Busy(w, i)
    ensures var a := |w.tasks|; var n := Goes(Apply(w, Click), a, 6);
            Delivered(n, a, i, Manual) && n.fronts == w.fronts + [i]
  {
    var a := |w.tasks|;
    var m := Apply(w, Click);
    assert AtWork(m, a, i, r, false, PressingManual);
    var n := GoesOn(m, a, i, r, false, PressingManual, 6);
    Fronts(n, a, i, r.(record := Some(r.record.value.(policy := Manual))), false, Manual);
  }

  // Over runs: in any state that can be reached, an automatic activation that is still active and found late is
  // offered and not brought to the front; and from then on its tab comes to the front only after a click.
  lemma {:induction false} LateWaitsForAClick(w: World, es: seq<Event>, a: nat, later: seq<Event>)
    requires Init(w)
    requires var m := After(w, es); a < |m.tasks| && m.tasks[a].pc == ReadingRecord(Auto) && m.tasks[a].output && IsActive(m, m.tasks[a].run)
    requires var m := After(w, es); m.runs[m.tasks[a].run].record.Some? && m.runs[m.tasks[a].run].record.value.policy == Auto
    requires forall e | e in later :: !e.Click?
    ensures var m := After(w, es); var i := m.tasks[a].run; var n := Apply(m, Go(a, Ok(true)));
            && n.tasks[a].pc == OfferingManual && n.fronts == m.fronts
            && m.fronts <= After(n, later).fronts && i !in After(n, later).fronts[|m.fronts|..]
  {
    AfterKeeps(w, es);
    var m := After(w, es);
    var i := m.tasks[a].run;
    assert TaskOk(m, m.tasks[a]);
    Moves(m, a, Ok(true));
    var n := Apply(m, Go(a, Ok(true)));
    EventKeeps(m, Go(a, Ok(true)));
    forall b | 0 <= b < |n.tasks| && n.tasks[b].run == i ensures Away(n.tasks[b].pc) {
      if b != a { assert n.tasks[b] == m.tasks[b]; }
    }
    AwayStays(n, later, i);
  }

  // No task of the run is on the way to the front.
  predicate Away(pc: PC) { pc in {OfferingManual, CleaningUp, Ended} }

  predicate AllAway(w: World, i: nat) { i < |w.runs| && forall b | 0 <= b < |w.tasks| && w.tasks[b].run == i :: Away(w.tasks[b].pc) }

  lemma AwayStep(w: World, e: Event, i: nat)
    requires Inv(w) && AllAway(w, i) && !e.Click?
    ensures AllAway(Apply(w, e), i) && w.fronts <= Apply(w, e).fronts && i !in Apply(w, e).fronts[|w.fronts|..]
  {
    FrontsIff(w, e);
  }

  lemma {:induction false} AwayStays(w: World, es: seq<Event>, i: nat)
    requires Inv(w) && AllAway(w, i) && forall e | e in es :: !e.Click?
    ensures w.fronts <= After(w, es).fronts && i !in After(w, es).fronts[|w.fronts|..]
    decreases |es|
  {
    if es == [] {
    } else {
      var n := Apply(w, es[0]);
      EventKeeps(w, es[0]);
      AwayStep(w, es[0], i);
      AwayStays(n, es[1..], i);
      NotAmongThese(w.fronts, n.fronts, After(w, es).fronts, i);
    }
  }

  // ---------- when a call fails ----------

  // An output that fails before its tab is brought to the front gives the run up: a tab that shows nothing yet is closed
  // if that succeeds, nothing is fronted, and no run is active any more.
  lemma FailureCleansUp(w: World, a: nat, i: nat, r: Run, pc: PC, o: Outcome)
    requires AtWork(w, a, i, r, true, pc) && r.tab != Activating
    requires pc !in {CleaningUp, Ended}
    ensures var m := Apply(w, Go(a, Error)); var n := Apply(m, Go(a, o));
            && m.tasks[a].pc == CleaningUp && m.active == Some(i) && m.fronts == w.fronts
            && n.tasks[a].pc == Ended && n.active == None && n.fronts == w.fronts
            && n.runs[i].tab == (if m.runs[i].tab == Provisional && o.Ok? then Closed else m.runs[i].tab)
            && m.runs[i].tab == (if pc == Navigating then Provisional else r.tab)
  {
    Moves(w, a, Error);
  }

  // One that fails while the call is under way leaves the tab prepared and gives the run up as well.
  lemma FailedFrontIsGivenUp(w: World, a: nat, i: nat, r: Run, pc: PC, o: Outcome)
    requires AtWork(w, a, i, r, true, pc) && AtFront(pc) && r.tab == Activating
    ensures var n := Apply(Apply(w, Go(a, Error)), Go(a, o));
            n.tasks[a].pc == Ended && n.active == None && n.runs[i].tab == Prepared && n.fronts == w.fronts
  {
    Moves(w, a, Error);
  }

  // A run that is cancelled ends at its next await without coming to the front.
  lemma CancelledGivesUp(w: World, a: nat, o: Outcome)
    requires Inv(w) && a < |w.tasks| && w.tasks[a].output && w.runs[w.tasks[a].run].cancelled && Live(w.tasks[a])
    ensures var n := Apply(w, Go(a, o));
            n.fronts == w.fronts && n.active == w.active && n.tasks[a].pc in {CleaningUp, Ended}
  {
    var t := w.tasks[a];
    assert TaskOk(w, t) && FrontOk(w, t.run);
  }

  // A manual activation that fails gives the run and the offer up.
  lemma FailedClickIsGivenUp(w: World, a: nat, i: nat, r: Run, pc: PC)
    requires AtWork(w, a, i, r, false, pc) && pc !in {Navigating, CleaningUp, Ended}
    ensures var n := Apply(w, Go(a, Error));
            && n.tasks[a].pc == Ended && n.active == None && n.pending == None && n.fronts == w.fronts
            && n.runs[i] == r.(tab := if r.tab == Activating then Prepared else r.tab)
  {
  }

  // When the record no longer has the task's policy after the tab came to the front, it is not marked as activated.
  lemma ChangedPolicyIsNotActivated(w: World, a: nat, i: nat, r: Run, output: bool, policy: Policy, late: bool)
    requires AtWork(w, a, i, r, output, RereadingRecord(policy)) && (r.record.None? || r.record.value.policy != policy)
    ensures var n := Apply(w, Go(a, Ok(late)));
            && n.runs[i] == r.(tab := Prepared) && n.fronts == w.fronts && n.tasks[a].pc == (if output then CleaningUp else Ended)
  {
  }

  // The cancellation is recorded, and from then on the page's message changes nothing.
  lemma CancelIsRecorded(w: World, i: nat, late: bool)
    requires i < |w.runs| && w.runs[i].cancelled && w.runs[i].record.Some?
    ensures var n := Apply(w, WritePolicyCancelled(i));
            && n.runs[i] == w.runs[i].(record := Some(w.runs[i].record.value.(policy := Cancelled)))
            && n.fronts == w.fronts && n.tasks == w.tasks && Apply(n, PageReady(i, late)) == n
  {
  }

  // A cancelled output closes the tab that shows nothing yet, and no other.
  lemma CancelledTabIsClosed(w: World, i: nat)
    requires i < |w.runs|
    ensures Apply(w, CloseTab(i)) == if w.runs[i].cancelled && w.runs[i].tab == Provisional
                                     then w.(runs := w.runs[i := w.runs[i].(tab := Closed)]) else w
  {
  }
}
