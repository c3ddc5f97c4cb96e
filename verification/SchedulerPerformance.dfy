/** What is admitted is performed: a third ledger over every run of the scheduler. */
module SchedulerPerformance {
  import opened Operations
  import opened SchedulingPolicy
  import opened TransferQueue
  import opened SchedulerCore
  import opened SchedulerRuns
  import opened SchedulerLedger
  import opened SchedulerSafety
  import opened SchedulerTheorems
  import opened SchedulerLiveness

  /** How many workers' threads are done with the body of `x` and have not deleted it. */
  ghost function WorkersPassed(s: seq<Worker>, x: Operation): nat {
    if s == [] then 0 else One(PassedBody(s[0].queue, x)) + WorkersPassed(s[1..], x)
  }

  /** Whatever was performed or spared is deleted, or passed by a worker's thread; and nothing
      is deleted otherwise. */
  ghost predicate PerformedOnce(s: State, x: Operation) {
    s.performed[x] + s.spared[x] == s.deleted[x] + WorkersPassed(s.core.workers, x) + WorkersPassed(s.detached, x)
  }

  // ---------- counting over workers ----------

  lemma {:induction false} PassedUpdate(s: seq<Worker>, i: nat, w: Worker, x: Operation)
    requires i < |s|
    ensures WorkersPassed(s[i := w], x) + One(PassedBody(s[i].queue, x))
         == WorkersPassed(s, x) + One(PassedBody(w.queue, x))
  {
    if i > 0 {
      assert s[i := w][1..] == s[1..][i - 1 := w];
      PassedUpdate(s[1..], i - 1, w, x);
    } else {
      assert s[i := w][1..] == s[1..];
    }
  }

  lemma {:induction false} SamePassed(s: seq<Worker>, t: seq<Worker>, x: Operation)
    requires |s| == |t|
    requires forall i :: 0 <= i < |s| ==> PassedBody(s[i].queue, x) == PassedBody(t[i].queue, x)
    ensures WorkersPassed(s, x) == WorkersPassed(t, x)
  {
    if s != [] {
      SamePassed(s[1..], t[1..], x);
    }
  }

  lemma {:induction false} PassedAtMostOwned(s: seq<Worker>, x: Operation)
    requires WorkersOk(s)
    ensures WorkersPassed(s, x) <= WorkersOwn(s, x)
  {
    if s != [] {
      PassedAtMostOwned(s[1..], x);
      assert WorkerOk(s[0]);
      PassedIsOwned(s[0].queue, x);
    }
  }

  lemma PassedIsOwned(q: Queue, x: Operation)
    requires Inv(q)
    ensures One(PassedBody(q, x)) <= Owned(q, x)
  {
    assert x in q.ops <==> multiset(q.ops)[x] > 0;
  }

  // ---------- one lemma for each kind of step ----------

  lemma StepOfThread(w: Worker, x: Operation)
    requires WorkerOk(w) && CanStep([w], 0)
    ensures One(PassedBody(WorkerNext(w).queue, x)) + One(w.queue.phase == Reported && w.queue.current == Some(x))
         == One(PassedBody(w.queue, x)) + One(w.queue.phase == Performing && w.queue.current == Some(x))
            + One(w.queue.phase == Running && w.queue.canceled && w.queue.current == Some(x))
  {
    assert LoopEnabled([w][0].queue);
    LoopBody(w.queue, x);
  }

  lemma SteppedCounts(s: State, w: Worker, x: Operation)
    ensures Stepped(s, w).deleted[x] == s.deleted[x] + One(w.queue.phase == Reported && w.queue.current == Some(x))
    ensures Stepped(s, w).performed[x] == s.performed[x] + One(w.queue.phase == Performing && w.queue.current == Some(x))
    ensures Stepped(s, w).spared[x]
         == s.spared[x] + One(w.queue.phase == Running && w.queue.canceled && w.queue.current == Some(x))
  {
  }

  lemma WorkerStepPerforms(s: State, i: nat, x: Operation)
    requires Shape(s) && Enabled(s, WorkerStep(i)) && PerformedOnce(s, x)
    ensures PerformedOnce(Next(s, WorkerStep(i)), x)
  {
    var w := s.core.workers[i];
    StepOfThread(w, x);
    SteppedCounts(s, w, x);
    PassedUpdate(s.core.workers, i, WorkerNext(w), x);
  }

  lemma DetachedStepPerforms(s: State, i: nat, x: Operation)
    requires Shape(s) && Enabled(s, DetachedStep(i)) && PerformedOnce(s, x)
    ensures PerformedOnce(Next(s, DetachedStep(i)), x)
  {
    var w := s.detached[i];
    StepOfThread(w, x);
    SteppedCounts(s, w, x);
    PassedUpdate(s.detached, i, WorkerNext(w), x);
  }

  /** A cancel takes nothing that a thread has started. */
  lemma CancelLeavesPassed(c: Core, op: Operation, x: Operation)
    requires WorkersOk(c.workers) && FrontsExist(c.workers) && Serving(c)
    ensures WorkersPassed(CancelledIn(c.workers, op).0, x) == WorkersPassed(c.workers, x)
  {
    ServingNotExited(c);
    var t := CancelledIn(c.workers, op).0;
    CancelledInKeeps(c.workers, op);
    forall i | 0 <= i < |c.workers|
      ensures PassedBody(t[i].queue, x) == PassedBody(c.workers[i].queue, x)
    {
      assert WorkerOk(c.workers[i]);
      KeepsBody(c.workers[i], t[i], op, x);
    }
    SamePassed(c.workers, t, x);
  }

  /** What a cancel may do to one worker. */
  ghost predicate CancelKeeps(v: Worker, w: Worker, op: Operation) {
    && (v.queue.performing ==> v.queue.ops != [])
    && (w == v || (CancelResult(v.queue, op) == Canceled
                   && w == Worker(Erased(v.operations, op), AfterCancel(v.queue, op))))
  }

  lemma {:induction false} CancelledInKeeps(s: seq<Worker>, op: Operation)
    requires FrontsExist(s)
    ensures var t := CancelledIn(s, op).0;
      |t| == |s| && forall i :: 0 <= i < |s| ==> CancelKeeps(s[i], t[i], op)
  {
    if s != [] {
      var w, rest := s[0], s[1..];
      assert s == [w] + rest;
      CancelledInOne(w, rest, op);
      CancelledInKeeps(rest, op);
    }
  }

  lemma KeepsBody(v: Worker, w: Worker, op: Operation, x: Operation)
    requires WorkerOk(v) && v.queue.phase != Exited && CancelKeeps(v, w, op)
    ensures PassedBody(w.queue, x) == PassedBody(v.queue, x)
  {
    if w != v {
      CancelLedger(v.queue, op, x);
    }
  }

  lemma CancelPerforms(s: State, op: Operation, x: Operation)
    requires Shape(s) && Enabled(s, Cancel(op)) && PerformedOnce(s, x)
    ensures PerformedOnce(CancelTaken(s, op), x)
  {
    CancelLeavesPassed(s.core, op, x);
    CancelOnlyInWorkers(s.core, op);
    assert CancelTaken(s, op).spared[x] - s.spared[x] == CancelTaken(s, op).deleted[x] - s.deleted[x];
  }

  lemma CancelOnlyInWorkers(c: Core, op: Operation)
    requires FrontsExist(c.workers)
    ensures Cancelled(c, op).0.workers in {c.workers, CancelledIn(c.workers, op).0}
  {
  }

  lemma DispatchPerforms(s: State, x: Operation)
    requires Shape(s) && Enabled(s, DispatchTurn) && PerformedOnce(s, x)
    ensures PerformedOnce(Next(s, DispatchTurn), x)
  {
    var c := s.core;
    var dispatch := Dispatched(c).1;
    if dispatch.Some? {
      var Dispatch(i, op) := dispatch.value;
      assert WorkerOk(c.workers[i]);
      AssignedOk(c.workers[i], op);
      PassedUpdate(c.workers, i, Assigned(c.workers[i], op), x);
    }
  }

  lemma TeardownPerforms(s: State, x: Operation)
    requires Shape(s) && Enabled(s, StopBegin) && PerformedOnce(s, x)
    ensures PerformedOnce(Next(s, StopBegin), x)
  {
    var workers := s.core.workers;
    forall i | 0 <= i < |workers|
      ensures PassedBody(AllTornDown(workers)[i].queue, x) == PassedBody(workers[i].queue, x)
    {
      TornDownHoldsTheSame(workers[i].queue, x);
    }
    SamePassed(workers, AllTornDown(workers), x);
  }

  lemma StopWorkerPerforms(s: State, x: Operation)
    requires Shape(s) && Enabled(s, StopWorker) && PerformedOnce(s, x)
    ensures PerformedOnce(Next(s, StopWorker), x)
  {
    var w := s.detached[0];
    PassedUpdate(s.detached, 0, w.(queue := StopRequested(TornDown(w.queue))), x);
  }

  lemma DrainPerforms(s: State, x: Operation)
    requires Shape(s) && Enabled(s, DrainWorker) && PerformedOnce(s, x)
    ensures PerformedOnce(HeadDrained(s), x)
  {
    var w := s.detached[0];
    var op := w.queue.ops[0];
    assert WorkerOk(w);
    assert w.queue.ops == [op];
    assert multiset([op])[op] == 1;
    DrainLedger(w.queue, x);
    PassedUpdate(s.detached, 0, OperationReported(w.(queue := Drained(w.queue)), op), x);
  }

  lemma DropPerforms(s: State, x: Operation)
    requires Shape(s) && Enabled(s, DropWorker) && PerformedOnce(s, x)
    ensures PerformedOnce(Next(s, DropWorker), x)
  {
    assert WorkerOk(s.detached[0]);
    PassedIsOwned(s.detached[0].queue, x);
  }

  lemma InitializePerforms(s: State, requested: int, x: Operation)
    requires Shape(s) && Enabled(s, Initialize(requested)) && PerformedOnce(s, x)
    ensures PerformedOnce(Next(s, Initialize(requested)), x)
  {
    FreshHavePassedNothing(Next(s, Initialize(requested)).core.workers, x);
  }

  lemma {:induction false} FreshHavePassedNothing(s: seq<Worker>, x: Operation)
    requires forall i :: 0 <= i < |s| ==> s[i] == Worker([], FRESH_QUEUE)
    ensures WorkersPassed(s, x) == 0
  {
    if s != [] {
      FreshHavePassedNothing(s[1..], x);
    }
  }

  /** The other steps move no thread, and delete only what they spare. */
  lemma AddsPerform(s: State, a: Action, x: Operation)
    requires Enabled(s, a) && PerformedOnce(s, x) && (a.AddBegin? || a.AddCommit?)
    ensures PerformedOnce(Next(s, a), x)
  {
    match a
    case AddBegin(op, priority) => assert AddBegun(s.core, op, priority).0.workers == s.core.workers;
    case AddCommit(op) => assert AddCommitted(s.core, op).0.workers == s.core.workers;
  }

  lemma TailsPerform(s: State, a: Action, x: Operation)
    requires Enabled(s, a) && PerformedOnce(s, x) && (a.TailHook? || a.TailDelete?)
    ensures PerformedOnce(Next(s, a), x)
  {
    match a
    case TailHook(_) =>
    case TailDelete(_) =>
  }

  lemma StagesPerform(s: State, a: Action, x: Operation)
    requires Shape(s) && Enabled(s, a) && PerformedOnce(s, x)
    requires a.DispatcherExit? || a.StopJoined? || a.StopAddsDone? || a.StopDetach? || a.WorkersGone? || a.StopFinish?
    ensures PerformedOnce(Next(s, a), x)
  {
    match a
    case DispatcherExit =>
    case StopJoined =>
    case StopAddsDone =>
    case StopDetach => assert s.detached == [];
    case WorkersGone =>
    case StopFinish =>
  }

  lemma DisposalsPerform(s: State, a: Action, x: Operation)
    requires Enabled(s, a) && PerformedOnce(s, x)
    requires a.TakeWaiting? || a.DisposeHook? || a.DisposeDelete?
    ensures PerformedOnce(Next(s, a), x)
  {
    match a
    case TakeWaiting =>
    case DisposeHook =>
    case DisposeDelete =>
  }

  lemma PerformStep(s: State, a: Action, x: Operation)
    requires Shape(s) && Enabled(s, a) && PerformedOnce(s, x)
    ensures PerformedOnce(Next(s, a), x)
  {
    match a
    case Initialize(requested) => InitializePerforms(s, requested, x);
    case Cancel(op) => CancelPerforms(s, op, x);
    case DispatchTurn => DispatchPerforms(s, x);
    case WorkerStep(i) => WorkerStepPerforms(s, i, x);
    case DetachedStep(i) => DetachedStepPerforms(s, i, x);
    case StopBegin => TeardownPerforms(s, x);
    case StopWorker => StopWorkerPerforms(s, x);
    case DrainWorker => DrainPerforms(s, x);
    case DropWorker => DropPerforms(s, x);
    case AddBegin(_, _) => AddsPerform(s, a, x);
    case AddCommit(_) => AddsPerform(s, a, x);
    case TailHook(_) => TailsPerform(s, a, x);
    case TailDelete(_) => TailsPerform(s, a, x);
    case TakeWaiting => DisposalsPerform(s, a, x);
    case DisposeHook => DisposalsPerform(s, a, x);
    case DisposeDelete => DisposalsPerform(s, a, x);
    case _ => StagesPerform(s, a, x);
  }

  lemma {:induction false} PerformRun(start: State, actions: seq<Action>, end: State, x: Operation)
    requires StateInv(start) && PerformedOnce(start, x) && IsRun(start, actions, end)
    ensures PerformedOnce(end, x)
    decreases |actions|
  {
    if actions != [] {
      PerformStep(start, actions[0], x);
      StepKeepsInv(start, actions[0]);
      PerformRun(Next(start, actions[0]), actions[1..], end, x);
    }
  }

  /** Over all runs: performed at most once; what has been deleted was performed or spared,
      never both; and what is still waiting has not been performed. */
  lemma PerformedAtMostOnce(actions: seq<Action>, s: State, x: Operation)
    requires IsRun(INITIAL, actions, s)
    ensures s.performed[x] + s.spared[x] <= 1
    ensures s.deleted[x] == 1 ==> s.performed[x] + s.spared[x] == 1
    ensures PendingCount(s.core.pending, x) + Content(s.core.lanes)[x] > 0 ==> s.performed[x] == 0
  {
    InitialInv();
    ReachableInv(actions, s);
    PerformRun(INITIAL, actions, s, x);
    assert Ledgers(s, x);
    PassedAtMostOwned(s.core.workers, x);
    PassedAtMostOwned(s.detached, x);
  }

  // ---------- without a cancel or a stop ----------

  predicate Disturbs(a: Action, x: Operation) {
    a == Cancel(x) || a.StopBegin?
  }

  ghost predicate Undisturbed(actions: seq<Action>, x: Operation) {
    forall i :: 0 <= i < |actions| ==> !Disturbs(actions[i], x)
  }

  /** Nothing is torn down and nothing has been done to keep `x` from being performed. */
  ghost predicate Calm(s: State, x: Operation) {
    && s.stage == NotStopping && s.detached == [] && s.disposing.None?
    && (forall i :: 0 <= i < |s.core.workers| ==> !s.core.workers[i].queue.canceled)
    && (forall i :: 0 <= i < |s.core.pending| && s.core.pending[i].op == x ==> !s.core.pending[i].canceled)
    && (x in s.admitted ==> x !in s.leaving && x !in s.left && s.spared[x] == 0)
    && (x !in s.handed ==> x !in s.admitted)
  }

  lemma NotHandedNotSpared(s: State, x: Operation)
    requires Shape(s) && Ledgers(s, x) && PerformedOnce(s, x) && x !in s.handed
    ensures s.spared[x] == 0 && s.performed[x] == 0
  {
    PassedAtMostOwned(s.core.workers, x);
    PassedAtMostOwned(s.detached, x);
  }

  lemma CalmAddBegin(s: State, op: Operation, priority: Priority, x: Operation)
    requires Shape(s) && Ledgers(s, x) && PerformedOnce(s, x) && Enabled(s, AddBegin(op, priority)) && Calm(s, x)
    ensures Calm(Begun(s, op, priority), x)
  {
    AddsUncancelled(s.core, op, priority, x);
    BegunBooks(s, op, priority, x);
    if op == x {
      NotHandedNotSpared(s, x);
    }
  }

  /** What an add writes into the books. */
  lemma BegunBooks(s: State, op: Operation, priority: Priority, x: Operation)
    ensures var t := Begun(s, op, priority);
      && t.core.workers == s.core.workers && t.stage == s.stage && t.detached == s.detached && t.disposing == s.disposing
      && t.spared == s.spared && t.left == s.left && t.handed == s.handed + {op}
      && (op != x ==> (x in t.admitted <==> x in s.admitted) && (x in t.leaving <==> x in s.leaving))
      && (op == x && x !in s.admitted && x in t.admitted ==> t.leaving == s.leaving)
  {
  }

  lemma AddsUncancelled(c: Core, op: Operation, priority: Priority, x: Operation)
    requires forall i :: 0 <= i < |c.pending| && c.pending[i].op == x ==> !c.pending[i].canceled
    ensures var p := AddBegun(c, op, priority).0.pending;
      forall i :: 0 <= i < |p| && p[i].op == x ==> !p[i].canceled
  {
  }

  lemma CalmAddCommit(s: State, op: Operation, x: Operation)
    requires Shape(s) && Enabled(s, AddCommit(op)) && Calm(s, x)
    ensures Calm(Committed(s, op), x)
  {
    var i := FirstMatching(s.core.pending, PendingFor(op));
    var k :| 0 <= k < |s.core.pending| && s.core.pending[k].op == op;
    assert PendingFor(op)(s.core.pending[k]);
  }

  /** Cancelling another operation leaves `x` where it is. */
  lemma CalmCancel(s: State, op: Operation, x: Operation)
    requires Shape(s) && Enabled(s, Cancel(op)) && Calm(s, x) && op != x
    ensures Calm(CancelTaken(s, op), x)
  {
    CancelledInKeeps(s.core.workers, op);
    CancelOnlyInWorkers(s.core, op);
    var t := CancelTaken(s, op);
    forall i | 0 <= i < |t.core.workers| ensures !t.core.workers[i].queue.canceled {
      assert !s.core.workers[i].queue.canceled;
    }
    CancelsOnlyIts(s.core, op, x);
  }

  lemma CancelsOnlyIts(c: Core, op: Operation, x: Operation)
    requires FrontsExist(c.workers) && op != x
    requires forall i :: 0 <= i < |c.pending| && c.pending[i].op == x ==> !c.pending[i].canceled
    ensures var p := Cancelled(c, op).0.pending;
      forall i :: 0 <= i < |p| && p[i].op == x ==> !p[i].canceled
  {
  }

  lemma CalmDispatch(s: State, x: Operation)
    requires Shape(s) && Enabled(s, DispatchTurn) && Calm(s, x)
    ensures Calm(Next(s, DispatchTurn), x)
  {
  }

  lemma CalmWorkerStep(s: State, i: nat, x: Operation)
    requires Shape(s) && Enabled(s, WorkerStep(i)) && Calm(s, x)
    ensures Calm(Next(s, WorkerStep(i)), x)
  {
    var w := s.core.workers[i];
    SteppedCounts(s, w, x);
    assert !WorkerNext(w).queue.canceled;
  }

  lemma CalmInitialize(s: State, requested: int, x: Operation)
    requires Shape(s) && Enabled(s, Initialize(requested)) && Calm(s, x)
    ensures Calm(Next(s, Initialize(requested)), x)
  {
    var t := Next(s, Initialize(requested));
    assert forall i :: 0 <= i < |t.core.workers| ==> t.core.workers[i] == Worker([], FRESH_QUEUE);
  }

  lemma CalmTail(s: State, a: Action, x: Operation)
    requires Enabled(s, a) && Calm(s, x) && (a.TailHook? || a.TailDelete?)
    ensures Calm(Next(s, a), x)
  {
    match a
    case TailHook(op) =>
    case TailDelete(op) =>
  }

  lemma CalmStep(s: State, a: Action, x: Operation)
    requires Shape(s) && Ledgers(s, x) && PerformedOnce(s, x)
    requires Enabled(s, a) && Calm(s, x) && !Disturbs(a, x)
    ensures Calm(Next(s, a), x)
  {
    if a.AddBegin? {
      CalmAddBegin(s, a.op, a.priority, x);
    } else if a.AddCommit? {
      CalmAddCommit(s, a.op, x);
    } else if a.Cancel? {
      CalmCancel(s, a.op, x);
    } else if a.DispatchTurn? {
      CalmDispatch(s, x);
    } else if a.WorkerStep? {
      CalmWorkerStep(s, a.i, x);
    } else if a.Initialize? {
      CalmInitialize(s, a.requested, x);
    } else {
      CalmTail(s, a, x);
    }
  }

  lemma {:induction false} CalmRun(start: State, actions: seq<Action>, end: State, x: Operation)
    requires StateInv(start) && PerformedOnce(start, x) && Calm(start, x)
    requires IsRun(start, actions, end) && Undisturbed(actions, x)
    ensures Calm(end, x) && PerformedOnce(end, x) && StateInv(end)
    decreases |actions|
  {
    if actions != [] {
      assert Ledgers(start, x);
      CalmStep(start, actions[0], x);
      PerformStep(start, actions[0], x);
      StepKeepsInv(start, actions[0]);
      assert forall i :: 0 <= i < |actions| - 1 ==> actions[1..][i] == actions[i + 1];
      CalmRun(Next(start, actions[0]), actions[1..], end, x);
    }
  }

  /** On a run without a stop and without a cancel of `x`: an admitted operation is deleted only
      after it was performed, and when nothing is left to do it has been performed exactly
      once. */
  lemma AdmittedIsPerformed(actions: seq<Action>, s: State, x: Operation)
    requires IsRun(INITIAL, actions, s) && Undisturbed(actions, x) && x in s.admitted
    ensures s.deleted[x] == 1 ==> s.performed[x] == 1
    ensures Quiet(s) ==> s.performed[x] == 1 && s.hooked[x] == 1 && s.deleted[x] == 1
  {
    InitialInv();
    CalmRun(INITIAL, actions, s, x);
    PerformedAtMostOnce(actions, s, x);
    if Quiet(s) {
      QuietIsDrained(s);
      assert x in s.handed;
    }
  }
}
