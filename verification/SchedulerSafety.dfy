/** Safety of the scheduler over every run. */
module SchedulerSafety {
  import opened Operations
  import opened SchedulingPolicy
  import opened TransferQueue
  import opened SchedulerCore
  import opened SchedulerRuns
  import opened SchedulerLedger

  // ---------- shape: one lemma for each kind of change ----------

  ghost predicate HoldsNoMore(v: Worker, w: Worker) {
    forall op :: op in v.operations ==> op in w.operations
  }

  lemma ReplaceWorker(s: seq<Worker>, i: nat, w: Worker)
    requires i < |s| && WorkersOk(s) && Exclusive(s)
    requires WorkerOk(w) && HoldsNoMore(w, s[i])
    ensures WorkersOk(s[i := w]) && Exclusive(s[i := w])
  {
    var t := s[i := w];
    forall j, k | 0 <= j < k < |t| ensures Apart(t[j], t[k]) {
      assert Apart(s[j], s[k]);
    }
  }

  lemma WorkerNextOk(w: Worker)
    requires WorkerOk(w) && CanStep([w], 0)
    ensures WorkerOk(WorkerNext(w)) && HoldsNoMore(WorkerNext(w), w)
    ensures WorkerNext(w).queue.stopping == w.queue.stopping
    ensures WorkerNext(w).queue.teardown == w.queue.teardown
  {
    assert LoopEnabled([w][0].queue);
    LoopKeepsInv(w.queue);
    match w.queue.phase
    case AtTop =>
    case Started =>
    case Running =>
    case Performing =>
    case Performed =>
    case Ended =>
    case Removing =>
    case Popped =>
    case Reported =>
    case Leaving =>
  }

  lemma WorkerStepShape(s: State, i: nat)
    requires Shape(s) && Enabled(s, WorkerStep(i))
    ensures Shape(Next(s, WorkerStep(i)))
  {
    WorkerNextOk(s.core.workers[i]);
    ReplaceWorker(s.core.workers, i, WorkerNext(s.core.workers[i]));
  }

  lemma DetachedStepShape(s: State, i: nat)
    requires Shape(s) && Enabled(s, DetachedStep(i))
    ensures Shape(Next(s, DetachedStep(i)))
  {
    WorkerNextOk(s.detached[i]);
    ReplaceWorker(s.detached, i, WorkerNext(s.detached[i]));
  }

  lemma CancelWorkerOk(w: Worker, op: Operation)
    requires WorkerOk(w) && w.queue.phase != Exited && op in w.operations
    requires w.queue.performing ==> w.queue.ops != []
    requires CancelResult(w.queue, op) == Canceled
    ensures var v := Worker(Erased(w.operations, op), AfterCancel(w.queue, op));
      WorkerOk(v) && HoldsNoMore(v, w)
  {
    ClientCallsKeepInv(w.queue, op, false);
    assert w.operations == w.queue.ops == [op];
    assert Erased([op], op) == [];
  }

  lemma UpdateBehind(v: Worker, s: seq<Worker>, i: nat, w: Worker)
    requires i < |s|
    ensures [v] + s[i := w] == ([v] + s)[i + 1 := w]
  {
  }

  /** How a cancellation treats the first worker. */
  lemma CancelledInFirst(s: seq<Worker>, op: Operation)
    requires s != [] && FrontsExist(s)
    ensures FrontsExist(s[1..]) && s == [s[0]] + s[1..]
    ensures var v := s[0];
      var r := CancelledIn(s, op).0;
      if op !in v.operations || CancelResult(v.queue, op) == NotQueued
      then r == [v] + CancelledIn(s[1..], op).0
      else if CancelResult(v.queue, op) == StillActive then r == s
      else r == s[0 := Worker(Erased(v.operations, op), AfterCancel(v.queue, op))]
  {
    assert FrontsExist(s[1..]);
  }

  ghost predicate Replaces(t: seq<Worker>, s: seq<Worker>, i: nat, w: Worker) {
    && i < |s| && t == s[i := w] && WorkerOk(w) && HoldsNoMore(w, s[i])
    && w.queue.stopping == s[i].queue.stopping && w.queue.teardown == s[i].queue.teardown
  }

  /** Cancelling replaces at most one worker. */
  lemma {:induction false} CancelledInReplaces(s: seq<Worker>, op: Operation) returns (i: nat, w: Worker)
    requires s != [] && WorkersOk(s) && FrontsExist(s)
    requires forall j :: 0 <= j < |s| ==> s[j].queue.phase != Exited
    ensures Replaces(CancelledIn(s, op).0, s, i, w)
  {
    CancelledInFirst(s, op);
    var v := s[0];
    assert WorkerOk(v);
    if op in v.operations && CancelResult(v.queue, op) == Canceled {
      i, w := 0, Worker(Erased(v.operations, op), AfterCancel(v.queue, op));
      CancelWorkerOk(v, op);
    } else if op in v.operations && CancelResult(v.queue, op) == StillActive {
      i, w := 0, v;
    } else if |s| == 1 {
      i, w := 0, v;
      assert s[1..] == [];
    } else {
      i, w := CancelledInReplaces(s[1..], op);
      UpdateBehind(v, s[1..], i, w);
      i := i + 1;
    }
  }

  lemma CancelShape(s: State, op: Operation)
    requires Shape(s) && Enabled(s, Cancel(op))
    ensures Shape(CancelTaken(s, op))
  {
    var c := s.core;
    var i := FirstMatching(c.pending, PendingFor(op));
    if i < |c.pending| || Waits(c.lanes, op) {
    } else if c.workers == [] {
      assert CancelledIn(c.workers, op).0 == [];
    } else {
      ServingNotExited(c);
      var k, w := CancelledInReplaces(c.workers, op);
      ReplaceWorker(c.workers, k, w);
    }
  }

  lemma AddBeginShape(s: State, op: Operation, priority: Priority)
    requires Shape(s) && Enabled(s, AddBegin(op, priority))
    ensures Shape(Begun(s, op, priority))
  {
    var t := Begun(s, op, priority);
    assert t.core.workers == s.core.workers && t.detached == s.detached;
  }

  lemma AddCommitShape(s: State, op: Operation)
    requires Shape(s) && Enabled(s, AddCommit(op))
    ensures Shape(Committed(s, op))
  {
  }

  lemma InitializeShape(s: State, requested: int)
    requires Shape(s) && Enabled(s, Initialize(requested))
    ensures Shape(Next(s, Initialize(requested)))
  {
    var t := Next(s, Initialize(requested));
    assert forall i :: 0 <= i < |t.core.workers| ==> t.core.workers[i] == Worker([], FRESH_QUEUE);
  }

  lemma AssignedOk(w: Worker, op: Operation)
    requires WorkerOk(w) && IsIdle(w) && !w.queue.stopping && !w.queue.teardown
    ensures WorkerOk(Assigned(w, op)) && Assigned(w, op).operations == [op]
    ensures Assigned(w, op).queue == w.queue.(ops := [op])
  {
    assert [] + [op] == [op];
    assert w.queue.phase != Popped;
    ClientCallsKeepInv(w.queue, op, false);
  }

  lemma DispatchShape(s: State)
    requires Shape(s) && Enabled(s, DispatchTurn)
    ensures Shape(Next(s, DispatchTurn))
  {
    var c := s.core;
    var (d, dispatch) := Dispatched(c);
    if dispatch.Some? {
      var Dispatch(i, op) := dispatch.value;
      TakenContent(c.lanes, FreeOfConflict(c.workers));
      assert FreeOfConflict(c.workers)(op);
      AssignedOk(c.workers[i], op);
      var t := c.workers[i := Assigned(c.workers[i], op)];
      forall j, k | 0 <= j < k < |t| ensures Apart(t[j], t[k]) {
        assert Apart(c.workers[j], c.workers[k]);
        if k == i { NoConflictWith(c.workers, op, j); }
        if j == i { NoConflictWith(c.workers, op, k); }
      }
    }
  }

  lemma NoConflictWith(s: seq<Worker>, op: Operation, j: nat)
    requires j < |s| && !WorkerConflict(s, op)
    ensures forall a :: a in s[j].operations ==> !Conflicts(op, a) && !Conflicts(a, op)
  {
    forall a | a in s[j].operations ensures !Conflicts(op, a) && !Conflicts(a, op) {
      assert !ConflictsWithAny(op, s[j].operations);
      var k :| 0 <= k < |s[j].operations| && s[j].operations[k] == a;
      assert !Conflicts(op, s[j].operations[k]);
    }
  }

  lemma StopBeginShape(s: State)
    requires Shape(s) && Enabled(s, StopBegin)
    ensures Shape(Next(s, StopBegin))
  {
    var t := AllTornDown(s.core.workers);
    forall i | 0 <= i < |t| ensures WorkerOk(t[i]) {
      assert WorkerOk(s.core.workers[i]);
    }
    forall j, k | 0 <= j < k < |t| ensures Apart(t[j], t[k]) {
      assert Apart(s.core.workers[j], s.core.workers[k]);
    }
  }

  lemma StopWorkerShape(s: State)
    requires Shape(s) && Enabled(s, StopWorker)
    ensures Shape(Next(s, StopWorker))
  {
    var w := s.detached[0];
    assert WorkerOk(w);
    ReplaceWorker(s.detached, 0, w.(queue := StopRequested(TornDown(w.queue))));
  }

  lemma DrainWorkerShape(s: State)
    requires Shape(s) && Enabled(s, DrainWorker)
    ensures Shape(HeadDrained(s))
  {
    var w := s.detached[0];
    var op := w.queue.ops[0];
    assert WorkerOk(w);
    assert w.operations == w.queue.ops == [op];
    assert Erased([op], op) == [];
    assert multiset([op])[op] == 1;
    DrainLedger(w.queue, op);
    ReplaceWorker(s.detached, 0, OperationReported(w.(queue := Drained(w.queue)), op));
  }

  lemma DropWorkerShape(s: State)
    requires Shape(s) && Enabled(s, DropWorker)
    ensures Shape(Next(s, DropWorker))
  {
    var t := s.detached[1..];
    forall j, k | 0 <= j < k < |t| ensures Apart(t[j], t[k]) {
      assert Apart(s.detached[j + 1], s.detached[k + 1]);
    }
  }

  lemma ShapeStep(s: State, a: Action)
    requires Shape(s) && Enabled(s, a)
    ensures Shape(Next(s, a))
  {
    match a
    case Initialize(requested) => InitializeShape(s, requested);
    case AddBegin(op, priority) => AddBeginShape(s, op, priority);
    case AddCommit(op) => AddCommitShape(s, op);
    case Cancel(op) => CancelShape(s, op);
    case DispatchTurn => DispatchShape(s);
    case WorkerStep(i) => WorkerStepShape(s, i);
    case DetachedStep(i) => DetachedStepShape(s, i);
    case StopBegin => StopBeginShape(s);
    case StopWorker => StopWorkerShape(s);
    case DrainWorker => DrainWorkerShape(s);
    case DropWorker => DropWorkerShape(s);
    case _ => SimpleShapes(s, a);
  }

  lemma SimpleShapes(s: State, a: Action)
    requires Shape(s) && Enabled(s, a)
    requires a.TailHook? || a.TailDelete? || a.DispatcherExit? || a.StopJoined? || a.StopAddsDone?
          || a.StopDetach? || a.WorkersGone? || a.TakeWaiting? || a.DisposeHook? || a.DisposeDelete? || a.StopFinish?
    ensures Shape(Next(s, a))
  {
    if a.TakeWaiting? || a.DisposeHook? || a.DisposeDelete? || a.StopFinish? || a.WorkersGone? {
      DisposalShapes(s, a);
    }
  }

  lemma DisposalShapes(s: State, a: Action)
    requires Shape(s) && Enabled(s, a)
    requires a.TakeWaiting? || a.DisposeHook? || a.DisposeDelete? || a.StopFinish? || a.WorkersGone?
    ensures Shape(Next(s, a))
  {
    match a
    case TakeWaiting =>
    case DisposeHook =>
    case DisposeDelete =>
    case StopFinish =>
    case WorkersGone =>
  }

  // ---------- waiting operations stay distinct ----------

  ghost predicate WaitsNoMore(d: Core, c: Core) {
    forall x :: IsWaiting(d, x) ==> IsWaiting(c, x)
  }

  lemma CommitWaiting(c: Core, op: Operation)
    ensures WaitsNoMore(AddCommitted(c, op).0, c)
  {
    var i := FirstMatching(c.pending, PendingFor(op));
    if i < |c.pending| {
      var d := AddCommitted(c, op).0;
      forall x | IsWaiting(d, x) ensures IsWaiting(c, x) {
        if !Waits(d.lanes, x) {
          var k :| 0 <= k < |d.pending| && d.pending[k].op == x && !d.pending[k].canceled;
          assert d.pending[k] == c.pending[if k < i then k else k + 1];
        } else if !Waits(c.lanes, x) {
          assert x == op;
          assert c.pending[i].op == op && !c.pending[i].canceled;
        }
      }
    }
  }

  lemma RemovedWaits(l: Lanes, op: Operation, x: Operation)
    requires Waits(Removed(l, op), x)
    ensures Waits(l, x)
  {
    assert x in multiset(Removed(l, op).urgent) || x in multiset(Removed(l, op).normal);
  }

  lemma CancelWaiting(c: Core, op: Operation)
    requires FrontsExist(c.workers)
    ensures WaitsNoMore(Cancelled(c, op).0, c)
  {
    var d := Cancelled(c, op).0;
    var i := FirstMatching(c.pending, PendingFor(op));
    if i < |c.pending| {
      assert d.lanes == c.lanes;
      forall x | IsWaiting(d, x) && !Waits(c.lanes, x) ensures IsWaiting(c, x) {
        var k :| 0 <= k < |d.pending| && d.pending[k].op == x && !d.pending[k].canceled;
        assert c.pending[k].op == x && !c.pending[k].canceled;
      }
    } else if Waits(c.lanes, op) {
      assert d.lanes == Removed(c.lanes, op) && d.pending == c.pending;
      forall x | Waits(d.lanes, x) ensures Waits(c.lanes, x) {
        RemovedWaits(c.lanes, op, x);
      }
    } else {
      assert d.lanes == c.lanes && d.pending == c.pending;
    }
  }

  lemma DispatchWaiting(c: Core)
    ensures WaitsNoMore(Dispatched(c).0, c)
  {
    var d := Dispatched(c).0;
    TakenContent(c.lanes, FreeOfConflict(c.workers));
    forall x | IsWaiting(d, x) ensures IsWaiting(c, x) {
      WaitsIsContent(c.lanes, x);
      WaitsIsContent(d.lanes, x);
    }
  }

  lemma BeginWaiting(c: Core, op: Operation, priority: Priority)
    requires NoEqualWaiting(c)
    ensures NoEqualWaiting(AddBegun(c, op, priority).0)
  {
    var (d, verdict) := AddBegun(c, op, priority);
    if verdict == Admitted {
      forall a | IsWaiting(c, a) ensures !Equals(op, a) {
        if Waits(c.lanes, a) {
          assert !EqualTo(op)(a);
        } else {
          var k :| 0 <= k < |c.pending| && c.pending[k].op == a && !c.pending[k].canceled;
          assert !PendingEqualTo(op)(c.pending[k]);
        }
      }
      forall x | IsWaiting(d, x) ensures x == op || IsWaiting(c, x) {
        if !Waits(c.lanes, x) {
          var k :| 0 <= k < |d.pending| && d.pending[k].op == x && !d.pending[k].canceled;
          assert k < |c.pending| ==> c.pending[k] == d.pending[k];
        }
      }
    } else {
      MergedWaiting(c, op, priority);
    }
  }

  lemma MergedWaiting(c: Core, op: Operation, priority: Priority)
    requires AddBegun(c, op, priority).1 != Admitted
    ensures WaitsNoMore(AddBegun(c, op, priority).0, c)
  {
    var d := AddBegun(c, op, priority).0;
    var duplicate := Found(c.lanes, EqualTo(op));
    if duplicate.Some? {
      PromotedContent(c.lanes, duplicate.value);
    }
    forall x | IsWaiting(d, x) ensures IsWaiting(c, x) {
      WaitsIsContent(c.lanes, x);
      WaitsIsContent(d.lanes, x);
      if !Waits(d.lanes, x) {
        var k :| 0 <= k < |d.pending| && d.pending[k].op == x && !d.pending[k].canceled;
        assert c.pending[k].op == x && !c.pending[k].canceled;
      }
    }
  }

  lemma TakeWaitingWaiting(s: State)
    requires Enabled(s, TakeWaiting)
    ensures WaitsNoMore(Next(s, TakeWaiting).core, s.core)
  {
    TakenNextContent(s.core.lanes);
    forall x | IsWaiting(Next(s, TakeWaiting).core, x) ensures IsWaiting(s.core, x) {
      WaitsIsContent(s.core.lanes, x);
      WaitsIsContent(Next(s, TakeWaiting).core.lanes, x);
    }
  }

  lemma FewerWaiting(d: Core, c: Core)
    requires WaitsNoMore(d, c) && NoEqualWaiting(c)
    ensures NoEqualWaiting(d)
  {
  }

  /** The other actions touch neither the lanes nor the pending adds. */
  lemma SameWaiting(s: State, a: Action)
    requires Enabled(s, a)
    requires !a.AddBegin? && !a.AddCommit? && !a.Cancel? && !a.DispatchTurn? && !a.TakeWaiting?
    ensures Next(s, a).core.lanes == s.core.lanes && Next(s, a).core.pending == s.core.pending
  {
  }

  lemma OthersWaitNoMore(s: State, a: Action)
    requires Shape(s) && Enabled(s, a) && !a.AddBegin?
    ensures WaitsNoMore(Next(s, a).core, s.core)
  {
    if a.AddCommit? {
      CommitWaiting(s.core, a.op);
    } else if a.Cancel? {
      CancelWaiting(s.core, a.op);
    } else if a.DispatchTurn? {
      DispatchWaiting(s.core);
    } else if a.TakeWaiting? {
      TakeWaitingWaiting(s);
    } else {
      SameWaiting(s, a);
    }
  }

  lemma WaitingStep(s: State, a: Action)
    requires Shape(s) && NoEqualWaiting(s.core) && Enabled(s, a)
    ensures NoEqualWaiting(Next(s, a).core)
  {
    if a.AddBegin? {
      BeginWaiting(s.core, a.op, a.priority);
    } else {
      OthersWaitNoMore(s, a);
      FewerWaiting(Next(s, a).core, s.core);
    }
  }

  // ---------- every run ----------

  lemma StepKeepsInv(s: State, a: Action)
    requires StateInv(s) && Enabled(s, a)
    ensures StateInv(Next(s, a))
  {
    ShapeStep(s, a);
    WaitingStep(s, a);
    forall x ensures Ledgers(Next(s, a), x) {
      LedgerStep(s, a, x);
    }
  }

  lemma {:induction false} RunsKeepInv(start: State, actions: seq<Action>, end: State)
    requires StateInv(start) && IsRun(start, actions, end)
    ensures StateInv(end)
    decreases |actions|
  {
    if actions != [] {
      StepKeepsInv(start, actions[0]);
      RunsKeepInv(Next(start, actions[0]), actions[1..], end);
    }
  }

  lemma InitialInv()
    ensures StateInv(INITIAL)
  {
  }

  lemma ReachableInv(actions: seq<Action>, s: State)
    requires IsRun(INITIAL, actions, s)
    ensures StateInv(s)
  {
    InitialInv();
    RunsKeepInv(INITIAL, actions, s);
  }
}
