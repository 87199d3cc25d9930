/**
 Nested acquisition of the promise-chain locks by any number of claim operations, in every interleaving:
 each operation takes its locks one after another, waits in the queue of each, and gives all of them back
 when it ends (apps/extension/background/cloud-claim.js:256-283,285-324,357-401,420-479,
 apps/extension/background/service-worker.js:799-812).
 */
module LockOrder {

  datatype Lock = External(operationKey: string) | Finalize(handoffId: string) | Begin(handoffId: string) | Asset(transferKey: string)

  function Rank(l: Lock): nat {
    match l case External(_) => 0 case Finalize(_) => 1 case Begin(_) => 2 case Asset(_) => 3
  }

  // The order of one operation's acquisitions.
  predicate Increasing(plan: seq<Lock>) { forall i, j | 0 <= i < j < |plan| :: Rank(plan[i]) < Rank(plan[j]) }

  datatype Task = Task(plan: seq<Lock>, got: nat, waiting: bool, done: bool)

  // For each lock, who holds it (the first) and who waits, in arrival order.
  datatype System = System(tasks: seq<Task>, queue: map<Lock, seq<nat>>)

  datatype Step = Arrive(task: nat) | Enter(task: nat) | Finish(task: nat)

  function QueueOf(s: System, l: Lock): seq<nat> { if l in s.queue then s.queue[l] else [] }

  predicate Enabled(s: System, step: Step) {
    step.task < |s.tasks| &&
    var t := s.tasks[step.task];
    match step
    case Arrive(_) => !t.done && !t.waiting && t.got < |t.plan|
    case Enter(i) => !t.done && t.waiting && t.got < |t.plan| && QueueOf(s, t.plan[t.got]) != [] && QueueOf(s, t.plan[t.got])[0] == i
    case Finish(_) => !t.done && !t.waiting && t.got >= |t.plan|
  }

  function Apply(s: System, step: Step): System
    requires Enabled(s, step)
  {
    var i := step.task;
    var t := s.tasks[i];
    match step
    case Arrive(_) =>
      System(s.tasks[i := t.(waiting := true)], s.queue[t.plan[t.got] := QueueOf(s, t.plan[t.got]) + [i]])
    case Enter(_) => s.(tasks := s.tasks[i := t.(waiting := false, got := t.got + 1)])
    case Finish(_) =>
      System(s.tasks[i := t.(done := true)],
             map l | l in s.queue :: if l in t.plan && s.queue[l] != [] then s.queue[l][1..] else s.queue[l])
  }

  predicate Holds(t: Task, l: Lock) { !t.done && t.got <= |t.plan| && l in t.plan[..t.got] }

  predicate WaitsFor(t: Task, l: Lock) { !t.done && t.waiting && t.got < |t.plan| && l == t.plan[t.got] }

  predicate TaskOk(t: Task) { Increasing(t.plan) && t.got <= |t.plan| && (t.waiting ==> t.got < |t.plan|) }

  predicate Distinct(q: seq<nat>) { forall a, b | 0 <= a < b < |q| :: q[a] != q[b] }

  // Queues and tasks agree: a queue lists the holders and waiters of its lock, and only its first holds it.
  ghost predicate QueueOk(s: System, l: Lock) {
    var q := QueueOf(s, l);
    && Distinct(q)
    && (forall i | i in q :: i < |s.tasks| && (Holds(s.tasks[i], l) || WaitsFor(s.tasks[i], l)))
    && (forall i | 0 <= i < |s.tasks| && Holds(s.tasks[i], l) :: q != [] && q[0] == i)
    && (forall i | 0 <= i < |s.tasks| && WaitsFor(s.tasks[i], l) :: i in q)
  }

  ghost predicate Inv(s: System) {
    (forall i | 0 <= i < |s.tasks| :: TaskOk(s.tasks[i])) && forall l :: QueueOk(s, l)
  }

  // No two operations hold one lock.
  lemma MutualExclusion(s: System, l: Lock, i: nat, j: nat)
    requires Inv(s) && i < |s.tasks| && j < |s.tasks| && Holds(s.tasks[i], l) && Holds(s.tasks[j], l)
    ensures i == j
  {
    assert QueueOk(s, l);
  }

  lemma ArriveKeeps(s: System, i: nat)
    requires Inv(s) && Enabled(s, Arrive(i))
    ensures Inv(Apply(s, Arrive(i)))
  {
    var n := Apply(s, Arrive(i));
    var t := s.tasks[i];
    var l := t.plan[t.got];
    assert QueueOk(s, l);
    assert i !in QueueOf(s, l);
    forall k ensures QueueOk(n, k) {
      assert QueueOk(s, k);
      if k != l { assert QueueOf(n, k) == QueueOf(s, k); }
    }
  }

  lemma EnterKeeps(s: System, i: nat)
    requires Inv(s) && Enabled(s, Enter(i))
    ensures Inv(Apply(s, Enter(i)))
  {
    var n := Apply(s, Enter(i));
    var t, u := s.tasks[i], n.tasks[i];
    assert u.plan[..u.got] == t.plan[..t.got] + [t.plan[t.got]];
    forall k ensures QueueOk(n, k) {
      assert QueueOk(s, k);
      assert QueueOf(n, k) == QueueOf(s, k);
    }
  }

  lemma FinishKeeps(s: System, i: nat)
    requires Inv(s) && Enabled(s, Finish(i))
    ensures Inv(Apply(s, Finish(i)))
  {
    var n := Apply(s, Finish(i));
    var t := s.tasks[i];
    assert t.plan[..t.got] == t.plan;
    forall k ensures QueueOk(n, k) {
      assert QueueOk(s, k);
      if k in t.plan {
        assert Holds(t, k);
        LeavesQueue(QueueOf(s, k));
        assert QueueOf(n, k) == QueueOf(s, k)[1..];
      } else {
        assert QueueOf(n, k) == QueueOf(s, k);
        assert i !in QueueOf(s, k);
      }
      forall u | u in QueueOf(n, k) ensures u < |n.tasks| && (Holds(n.tasks[u], k) || WaitsFor(n.tasks[u], k)) {
        assert u in QueueOf(s, k) && u != i && n.tasks[u] == s.tasks[u];
      }
    }
  }

  lemma LeavesQueue(q: seq<nat>)
    requires q != [] && Distinct(q)
    ensures Distinct(q[1..]) && (forall u :: u in q[1..] <==> u in q && u != q[0])
  {
    forall u | u in q && u != q[0] ensures u in q[1..] {
      var j :| 0 <= j < |q| && q[j] == u;
      assert q[1..][j - 1] == u;
    }
  }

  lemma StepKeeps(s: System, step: Step)
    requires Inv(s) && Enabled(s, step)
    ensures Inv(Apply(s, step)) && |Apply(s, step).tasks| == |s.tasks|
  {
    match step
    case Arrive(i) => ArriveKeeps(s, i);
    case Enter(i) => EnterKeeps(s, i);
    case Finish(i) => FinishKeeps(s, i);
  }

  // As long as one operation has not ended, some operation can move: whoever waits waits for one that holds
  // only earlier locks, so following the holders ends at one that does not wait.
  lemma {:induction false} Progress(s: System, i: nat) returns (step: Step)
    requires Inv(s) && i < |s.tasks| && !s.tasks[i].done
    ensures Enabled(s, step)
    decreases if s.tasks[i].waiting then 4 - Rank(s.tasks[i].plan[s.tasks[i].got]) else 0
  {
    var t := s.tasks[i];
    if !t.waiting {
      step := if t.got < |t.plan| then Arrive(i) else Finish(i);
    } else {
      var l := t.plan[t.got];
      assert QueueOk(s, l) && WaitsFor(t, l);
      var h := QueueOf(s, l)[0];
      assert h in QueueOf(s, l);
      if WaitsFor(s.tasks[h], l) {
        step := Enter(h);
      } else {
        assert Holds(s.tasks[h], l);
        assert TaskOk(s.tasks[h]);
        step := Progress(s, h);
      }
    }
  }

  // ---------- every run ends, with every operation done ----------

  function Remaining(t: Task): nat {
    if t.done || t.got > |t.plan| then 0 else 2 * (|t.plan| - t.got) + (if t.waiting && t.got < |t.plan| then 0 else 1)
  }

  function Total(tasks: seq<Task>): nat {
    if tasks == [] then 0 else Total(tasks[..|tasks| - 1]) + Remaining(tasks[|tasks| - 1])
  }

  lemma {:induction false} TotalUpdate(tasks: seq<Task>, i: nat, t: Task)
    requires i < |tasks|
    ensures Total(tasks[i := t]) + Remaining(tasks[i]) == Total(tasks) + Remaining(t)
    decreases |tasks|
  {
    var front, n := tasks[..|tasks| - 1], |tasks| - 1;
    if i == n {
      assert tasks[i := t][..n] == front;
    } else {
      assert tasks[i := t][..n] == front[i := t];
      TotalUpdate(front, i, t);
    }
  }

  lemma StepCosts(s: System, step: Step)
    requires Inv(s) && Enabled(s, step)
    ensures Total(Apply(s, step).tasks) + 1 == Total(s.tasks)
  {
    TotalUpdate(s.tasks, step.task, Apply(s, step).tasks[step.task]);
    assert TaskOk(s.tasks[step.task]);
  }

  predicate Possible(s: System, steps: seq<Step>)
    decreases |steps|
  {
    steps == [] || (Enabled(s, steps[0]) && Possible(Apply(s, steps[0]), steps[1..]))
  }

  function Run(s: System, steps: seq<Step>): System
    requires Possible(s, steps)
    decreases |steps|
  {
    if steps == [] then s else Run(Apply(s, steps[0]), steps[1..])
  }

  // Every interleaving keeps the queues in order and moves closer to the end with every step.
  lemma {:induction false} RunKeeps(s: System, steps: seq<Step>)
    requires Inv(s) && Possible(s, steps)
    ensures var n := Run(s, steps); Inv(n) && |n.tasks| == |s.tasks| && |steps| + Total(n.tasks) == Total(s.tasks)
    decreases |steps|
  {
    if steps == [] {
    } else {
      StepKeeps(s, steps[0]);
      StepCosts(s, steps[0]);
      RunKeeps(Apply(s, steps[0]), steps[1..]);
    }
  }

  // ---------- the claim operations ----------

  datatype Operation = DoBegin(handoffId: string, action: string) | DoFinalize(handoffId: string, action: string)
                     | DoCompleted(handoffId: string, action: string) | DoAsset(handoffId: string, action: string, slot: string)
                     | DoOther(handoffId: string, action: string)

  function OperationKey(o: Operation): string { o.handoffId + ":" + o.action }

  function Plan(o: Operation): (plan: seq<Lock>)
    ensures Increasing(plan)
  {
    match o
    case DoBegin(h, _) => [External(OperationKey(o)), Begin(h)]
    case DoFinalize(h, _) => [External(OperationKey(o)), Finalize(h), Begin(h)]
    case DoCompleted(h, _) => [External(OperationKey(o)), Finalize(h)]
    case DoAsset(h, _, slot) => [External(OperationKey(o)), Asset(h + ":" + slot)]
    case DoOther(_, _) => [External(OperationKey(o))]
  }

  function Start(operations: seq<Operation>): System {
    System(seq(|operations|, i requires 0 <= i < |operations| => Task(Plan(operations[i]), 0, false, false)), map[])
  }

  // Any number of claim operations, in any interleaving: nobody is ever stuck, no two are ever in one critical
  // section, and the number of steps is bounded by what the operations started with.
  lemma {:induction false} ClaimOperationsNeverDeadlock(operations: seq<Operation>, steps: seq<Step>)
    requires Possible(Start(operations), steps)
    ensures var n := Run(Start(operations), steps);
            && Inv(n) && |n.tasks| == |operations|
            && |steps| <= Total(Start(operations).tasks)
            && ((forall i | 0 <= i < |n.tasks| :: n.tasks[i].done) || exists step :: Enabled(n, step))
  {
    var s := Start(operations);
    assert forall l :: QueueOf(s, l) == [];
    assert Inv(s);
    RunKeeps(s, steps);
    var n := Run(s, steps);
    if i :| 0 <= i < |n.tasks| && !n.tasks[i].done {
      var step := Progress(n, i);
    }
  }

  // ---------- which operations exclude each other ----------

  // Operations of one queue; two that begin or finalize a hand-off; two that finalize or complete it; two that start
  // or read one slot of it.
  predicate Conflict(a: Operation, b: Operation) {
    || OperationKey(a) == OperationKey(b)
    || (a.handoffId == b.handoffId && (a.DoBegin? || a.DoFinalize?) && (b.DoBegin? || b.DoFinalize?))
    || (a.handoffId == b.handoffId && (a.DoFinalize? || a.DoCompleted?) && (b.DoFinalize? || b.DoCompleted?))
    || (a.DoAsset? && b.DoAsset? && a.handoffId == b.handoffId && a.slot == b.slot)
  }

  // It has all its locks and has not ended.
  predicate Inside(t: Task) { !t.done && t.got == |t.plan| }

  lemma {:induction false} PlansStay(s: System, steps: seq<Step>, i: nat)
    requires Possible(s, steps) && i < |s.tasks|
    ensures |Run(s, steps).tasks| == |s.tasks| && Run(s, steps).tasks[i].plan == s.tasks[i].plan
    decreases |steps|
  {
    if steps == [] {
    } else {
      PlansStay(Apply(s, steps[0]), steps[1..], i);
    }
  }

  lemma SharedLock(a: Operation, b: Operation) returns (l: Lock)
    requires Conflict(a, b)
    ensures l in Plan(a) && l in Plan(b)
  {
    if OperationKey(a) == OperationKey(b) {
      l := External(OperationKey(a));
      assert Plan(a)[0] == l && Plan(b)[0] == l;
    } else if (a.DoBegin? || a.DoFinalize?) && (b.DoBegin? || b.DoFinalize?) {
      l := Begin(a.handoffId);
      assert Plan(a)[|Plan(a)| - 1] == l && Plan(b)[|Plan(b)| - 1] == l;
    } else if a.DoAsset? {
      l := Plan(a)[1];
      assert Plan(b)[1] == l;
    } else {
      l := Finalize(a.handoffId);
      assert Plan(a)[1] == l && Plan(b)[1] == l;
    }
  }

  // In every interleaving: two operations that conflict are never both past their last await for a lock.
  lemma {:induction false} ConflictsExclude(operations: seq<Operation>, steps: seq<Step>, i: nat, j: nat)
    requires Possible(Start(operations), steps) && i < |operations| && j < |operations| && i != j
    requires var n := Run(Start(operations), steps); |n.tasks| == |operations| && Inside(n.tasks[i]) && Inside(n.tasks[j])
    ensures !Conflict(operations[i], operations[j])
  {
    ClaimOperationsNeverDeadlock(operations, steps);
    PlansStay(Start(operations), steps, i);
    PlansStay(Start(operations), steps, j);
    var n := Run(Start(operations), steps);
    if Conflict(operations[i], operations[j]) {
      var l := SharedLock(operations[i], operations[j]);
      assert n.tasks[i].plan[..n.tasks[i].got] == n.tasks[i].plan && n.tasks[j].plan[..n.tasks[j].got] == n.tasks[j].plan;
      MutualExclusion(n, l, i, j);
    }
  }
}
