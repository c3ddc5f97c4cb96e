/** Every action of the scheduler moves operations without losing or duplicating one, and
    calls the terminal hook exactly when it should. */
module SchedulerLedger {
  import opened Operations
  import opened SchedulingPolicy
  import opened TransferQueue
  import opened SchedulerCore
  import opened SchedulerRuns

  lemma {:induction false} PendingAppend(s: seq<Pending>, p: Pending, x: Operation)
    ensures PendingCount(s + [p], x) == PendingCount(s, x) + One(p.op == x)
  {
    if s == [] {
      assert s + [p] == [p];
      assert PendingCount([p][1..], x) == 0;
    } else {
      assert (s + [p])[1..] == s[1..] + [p];
      PendingAppend(s[1..], p, x);
    }
  }

  lemma {:induction false} PendingUpdate(s: seq<Pending>, i: nat, p: Pending, x: Operation)
    requires i < |s| && p.op == s[i].op
    ensures PendingCount(s[i := p], x) == PendingCount(s, x)
  {
    if i > 0 {
      assert s[i := p][1..] == s[1..][i - 1 := p];
      PendingUpdate(s[1..], i - 1, p, x);
    } else {
      assert s[i := p][1..] == s[1..];
    }
  }

  lemma {:induction false} PendingRemove(s: seq<Pending>, i: nat, x: Operation)
    requires i < |s|
    ensures PendingCount(s[..i] + s[i + 1..], x) + One(s[i].op == x) == PendingCount(s, x)
  {
    if i == 0 {
      assert s[..i] + s[i + 1..] == s[1..];
    } else {
      assert (s[..i] + s[i + 1..])[1..] == s[1..][..i - 1] + s[1..][i..];
      PendingRemove(s[1..], i - 1, x);
    }
  }

  lemma {:induction false} WorkerUpdate(s: seq<Worker>, i: nat, w: Worker, x: Operation)
    requires i < |s|
    ensures WorkersOwn(s[i := w], x) + Owned(s[i].queue, x) == WorkersOwn(s, x) + Owned(w.queue, x)
    ensures WorkersHooked(s[i := w], x) + One(HookCalled(s[i].queue, x))
         == WorkersHooked(s, x) + One(HookCalled(w.queue, x))
  {
    if i > 0 {
      assert s[i := w][1..] == s[1..][i - 1 := w];
      WorkerUpdate(s[1..], i - 1, w, x);
    } else {
      assert s[i := w][1..] == s[1..];
    }
  }

  /** Workers whose queues own and have hooked the same operations. */
  lemma {:induction false} SameHoldings(s: seq<Worker>, t: seq<Worker>, x: Operation)
    requires |s| == |t|
    requires forall i :: 0 <= i < |s| ==>
      Owned(s[i].queue, x) == Owned(t[i].queue, x) && HookCalled(s[i].queue, x) == HookCalled(t[i].queue, x)
    ensures WorkersOwn(s, x) == WorkersOwn(t, x) && WorkersHooked(s, x) == WorkersHooked(t, x)
  {
    if s != [] {
      SameHoldings(s[1..], t[1..], x);
    }
  }

  lemma {:induction false} FreshWorkersOwnNothing(s: seq<Worker>, x: Operation)
    requires forall i :: 0 <= i < |s| ==> s[i] == Worker([], FRESH_QUEUE)
    ensures WorkersOwn(s, x) == 0 && WorkersHooked(s, x) == 0
  {
    if s != [] {
      FreshWorkersOwnNothing(s[1..], x);
    }
  }

  // ---------- one lemma an action ----------

  lemma InitializeLedger(s: State, requested: int, x: Operation)
    requires Shape(s) && Enabled(s, Initialize(requested)) && Ledgers(s, x)
    ensures Ledgers(Next(s, Initialize(requested)), x)
  {
    var t := Next(s, Initialize(requested));
    FreshWorkersOwnNothing(t.core.workers, x);
  }

  /** An add puts nothing new into the core but the operation it admits. */
  lemma BegunCount(c: Core, op: Operation, priority: Priority, x: Operation)
    ensures var (d, verdict) := AddBegun(c, op, priority);
      && d.workers == c.workers
      && PendingCount(d.pending, x) + Content(d.lanes)[x]
         == PendingCount(c.pending, x) + Content(c.lanes)[x] + One(verdict == Admitted && op == x)
  {
    var duplicate := Found(c.lanes, EqualTo(op));
    var i := FirstMatching(c.pending, PendingEqualTo(op));
    if duplicate.Some? {
      PromotedContent(c.lanes, duplicate.value);
    } else if i < |c.pending| {
      PendingUpdate(c.pending, i, c.pending[i].(priority := Urgent), x);
    } else {
      PendingAppend(c.pending, Pending(op, priority, false), x);
    }
  }

  lemma AddBeginLedger(s: State, op: Operation, priority: Priority, x: Operation)
    requires Enabled(s, AddBegin(op, priority)) && Ledgers(s, x)
    ensures Ledgers(Begun(s, op, priority), x)
  {
    BegunCount(s.core, op, priority, x);
  }

  ghost function CoreCount(c: Core, x: Operation): nat {
    PendingCount(c.pending, x) + Content(c.lanes)[x] + WorkersOwn(c.workers, x)
  }

  lemma PushedCount(l: Lanes, op: Operation, p: Priority, x: Operation)
    ensures Content(Pushed(l, op, p))[x] == Content(l)[x] + One(x == op)
  {
    PushedContent(l, op, p);
  }

  lemma RemovedCount(l: Lanes, op: Operation, x: Operation)
    requires Waits(l, op)
    ensures Content(Removed(l, op))[x] + One(x == op) == Content(l)[x]
  {
    RemovedContent(l, op);
    assert (Content(Removed(l, op)) + multiset{op})[x] == Content(l)[x];
  }

  lemma CommittedCount(c: Core, op: Operation, x: Operation)
    requires exists k :: 0 <= k < |c.pending| && c.pending[k].op == op
    ensures var (d, admitted) := AddCommitted(c, op);
      && CoreCount(d, x) + One(!admitted && x == op) == CoreCount(c, x)
      && d.workers == c.workers
  {
    var i := FirstMatching(c.pending, PendingFor(op));
    var k :| 0 <= k < |c.pending| && c.pending[k].op == op;
    assert PendingFor(op)(c.pending[k]);
    assert i < |c.pending| && c.pending[i].op == op;
    PendingRemove(c.pending, i, x);
    var p := c.pending[i];
    var (d, admitted) := AddCommitted(c, op);
    assert d.pending == c.pending[..i] + c.pending[i + 1..];
    if admitted {
      PushedCount(c.lanes, op, p.priority, x);
      assert d.lanes == Pushed(c.lanes, op, p.priority);
    }
  }

  lemma AddCommitLedger(s: State, op: Operation, x: Operation)
    requires Enabled(s, AddCommit(op)) && Ledgers(s, x) && Conserved(s, op)
    ensures Ledgers(Committed(s, op), x)
  {
    CommittedCount(s.core, op, x);
    CommittedCount(s.core, op, op);
  }

  lemma CancelledInOne(w: Worker, rest: seq<Worker>, op: Operation)
    requires FrontsExist([w] + rest)
    ensures FrontsExist(rest)
    ensures CancelledIn([w] + rest, op) ==
      if op in w.operations && CancelResult(w.queue, op) == Canceled then
        ([Worker(Erased(w.operations, op), AfterCancel(w.queue, op))] + rest, TookAssigned)
      else if op in w.operations && CancelResult(w.queue, op) == StillActive then ([w] + rest, IsActive)
      else ([w] + CancelledIn(rest, op).0, CancelledIn(rest, op).1)
  {
    assert ([w] + rest)[1..] == rest;
    assert forall i :: 0 <= i < |rest| ==> rest[i] == ([w] + rest)[i + 1];
  }

  lemma {:induction false} CancelledInLedger(s: seq<Worker>, op: Operation, x: Operation)
    requires WorkersOk(s) && FrontsExist(s)
    requires forall i :: 0 <= i < |s| ==> s[i].queue.phase != Exited
    ensures var (t, verdict) := CancelledIn(s, op);
      && WorkersOwn(t, x) + One(verdict == TookAssigned && x == op) == WorkersOwn(s, x)
      && WorkersHooked(t, x) == WorkersHooked(s, x)
  {
    if s != [] {
      var w, rest := s[0], s[1..];
      assert s == [w] + rest;
      assert forall i :: 0 <= i < |rest| ==> rest[i] == s[i + 1];
      CancelledInOne(w, rest, op);
      CancelledInLedger(rest, op, x);
      FirstOwns(w, rest, x);
      FirstOwns(w, CancelledIn(rest, op).0, x);
      CancelledFirstLedger(w, rest, op, x);
    }
  }

  lemma CancelledFirstLedger(w: Worker, rest: seq<Worker>, op: Operation, x: Operation)
    requires Inv(w.queue) && w.queue.phase != Exited
    ensures CancelResult(w.queue, op) == Canceled ==>
      var t := [Worker(Erased(w.operations, op), AfterCancel(w.queue, op))] + rest;
      && WorkersOwn(t, x) + One(x == op) == WorkersOwn([w] + rest, x)
      && WorkersHooked(t, x) == WorkersHooked([w] + rest, x)
  {
    FirstOwns(w, rest, x);
    if CancelResult(w.queue, op) == Canceled {
      CancelLedger(w.queue, op, x);
      FirstOwns(Worker(Erased(w.operations, op), AfterCancel(w.queue, op)), rest, x);
    }
  }

  lemma FirstOwns(w: Worker, rest: seq<Worker>, x: Operation)
    ensures WorkersOwn([w] + rest, x) == Owned(w.queue, x) + WorkersOwn(rest, x)
    ensures WorkersHooked([w] + rest, x) == One(HookCalled(w.queue, x)) + WorkersHooked(rest, x)
  {
    assert ([w] + rest)[1..] == rest;
  }

  ghost predicate CountsAfterCancel(c: Core, op: Operation, x: Operation, d: Core, verdict: CancelVerdict) {
    && CoreCount(d, x) + One((verdict == TookWaiting || verdict == TookAssigned) && x == op) == CoreCount(c, x)
    && WorkersHooked(d.workers, x) == WorkersHooked(c.workers, x)
  }

  lemma CancelPendingCount(c: Core, op: Operation, i: nat, x: Operation)
    requires i < |c.pending|
    ensures CountsAfterCancel(c, op, x, c.(pending := c.pending[i := c.pending[i].(canceled := true)]), MarkedPending)
  {
    PendingUpdate(c.pending, i, c.pending[i].(canceled := true), x);
  }

  lemma CancelWaitingCount(c: Core, op: Operation, x: Operation)
    requires Waits(c.lanes, op)
    ensures CountsAfterCancel(c, op, x, c.(lanes := Removed(c.lanes, op)), TookWaiting)
  {
    RemovedCount(c.lanes, op, x);
  }

  lemma CancelAssignedCount(c: Core, op: Operation, x: Operation)
    requires WorkersOk(c.workers) && FrontsExist(c.workers) && Serving(c)
    ensures var (workers, verdict) := CancelledIn(c.workers, op);
      CountsAfterCancel(c, op, x, c.(workers := workers), verdict)
  {
    ServingNotExited(c);
    CancelledInLedger(c.workers, op, x);
    CancelledInVerdict(c.workers, op);
  }

  lemma {:induction false} CancelledInVerdict(s: seq<Worker>, op: Operation)
    requires FrontsExist(s)
    ensures CancelledIn(s, op).1 in {TookAssigned, IsActive, Unknown}
  {
    if s != [] {
      assert FrontsExist(s[1..]);
      CancelledInVerdict(s[1..], op);
    }
  }

  lemma CancelledCount(c: Core, op: Operation, x: Operation)
    requires WorkersOk(c.workers) && FrontsExist(c.workers) && Serving(c)
    ensures CountsAfterCancel(c, op, x, Cancelled(c, op).0, Cancelled(c, op).1)
  {
    var i := FirstMatching(c.pending, PendingFor(op));
    if i < |c.pending| {
      CancelPendingCount(c, op, i, x);
    } else if Waits(c.lanes, op) {
      CancelWaitingCount(c, op, x);
    } else {
      CancelAssignedCount(c, op, x);
    }
  }

  lemma ServingNotExited(c: Core)
    requires WorkersOk(c.workers) && Serving(c)
    ensures forall i :: 0 <= i < |c.workers| ==> c.workers[i].queue.phase != Exited
  {
    forall i | 0 <= i < |c.workers| ensures c.workers[i].queue.phase != Exited {
      assert WorkerOk(c.workers[i]);
    }
  }

  lemma CancelTakenLedger(s: State, op: Operation, x: Operation)
    requires Shape(s) && Enabled(s, Cancel(op)) && Ledgers(s, x) && Conserved(s, op)
    ensures Ledgers(CancelTaken(s, op), x)
  {
    CancelConserves(s, op, x);
    CancelHooksOnce(s, op, x);
  }

  lemma CancelConserves(s: State, op: Operation, x: Operation)
    requires Shape(s) && Enabled(s, Cancel(op)) && Conserved(s, x) && Conserved(s, op)
    ensures Conserved(CancelTaken(s, op), x)
  {
    CancelledCount(s.core, op, x);
    CancelledCount(s.core, op, op);
  }

  lemma CancelHooksOnce(s: State, op: Operation, x: Operation)
    requires Shape(s) && Enabled(s, Cancel(op)) && HookedOnce(s, x)
    ensures HookedOnce(CancelTaken(s, op), x)
  {
    CancelledCount(s.core, op, x);
  }

  /** A dispatch moves one operation from its lane to a worker. */
  lemma DispatchedCount(c: Core, x: Operation)
    requires WorkersOk(c.workers) && Serving(c)
    ensures var d := Dispatched(c).0;
      && CoreCount(d, x) == CoreCount(c, x) && d.pending == c.pending
      && WorkersHooked(d.workers, x) == WorkersHooked(c.workers, x)
  {
    var dispatch := Dispatched(c).1;
    if dispatch.Some? {
      var Dispatch(i, op) := dispatch.value;
      TakenContent(c.lanes, FreeOfConflict(c.workers));
      WorkerUpdate(c.workers, i, Assigned(c.workers[i], op), x);
      assert WorkerOk(c.workers[i]);
      AssignedLedger(c.workers[i], op, x);
    }
  }

  lemma DispatchLedger(s: State, x: Operation)
    requires Shape(s) && Enabled(s, DispatchTurn) && Ledgers(s, x)
    ensures Ledgers(Next(s, DispatchTurn), x)
  {
    DispatchedCount(s.core, x);
  }

  /** An idle worker of a running scheduler admits what it is given. */
  lemma AssignedLedger(w: Worker, op: Operation, x: Operation)
    requires WorkerOk(w) && IsIdle(w) && !w.queue.stopping && !w.queue.teardown
    ensures Admit(w.queue, op) == Accepted
    ensures Owned(Assigned(w, op).queue, x) == Owned(w.queue, x) + One(x == op)
    ensures HookCalled(Assigned(w, op).queue, x) == HookCalled(w.queue, x)
  {
    assert [] + [op] == [op];
    assert multiset([op])[x] == One(x == op);
  }

  lemma WorkerNextLedger(w: Worker, x: Operation)
    requires WorkerOk(w) && CanStep([w], 0)
    ensures var gone := One(w.queue.phase == Reported && w.queue.current == Some(x));
      && Owned(WorkerNext(w).queue, x) + gone == Owned(w.queue, x)
      && One(HookCalled(WorkerNext(w).queue, x)) + gone
         == One(HookCalled(w.queue, x)) + One(w.queue.phase == Performed && w.queue.current == Some(x))
  {
    assert LoopEnabled([w][0].queue);
    LoopLedger(w.queue, x);
  }

  lemma SteppedLedger(s: State, w: Worker, x: Operation)
    requires WorkerOk(w)
    ensures Stepped(s, w).hooked[x] == s.hooked[x] + One(w.queue.phase == Performed && w.queue.current == Some(x))
    ensures Stepped(s, w).deleted[x] == s.deleted[x] + One(w.queue.phase == Reported && w.queue.current == Some(x))
  {
  }

  lemma WorkerStepLedger(s: State, i: nat, x: Operation)
    requires Shape(s) && Enabled(s, WorkerStep(i)) && Ledgers(s, x)
    ensures Ledgers(Next(s, WorkerStep(i)), x)
  {
    var w := s.core.workers[i];
    WorkerNextLedger(w, x);
    SteppedLedger(s, w, x);
    WorkerUpdate(s.core.workers, i, WorkerNext(w), x);
  }

  lemma DetachedStepLedger(s: State, i: nat, x: Operation)
    requires Shape(s) && Enabled(s, DetachedStep(i)) && Ledgers(s, x)
    ensures Ledgers(Next(s, DetachedStep(i)), x)
  {
    var w := s.detached[i];
    WorkerNextLedger(w, x);
    SteppedLedger(s, w, x);
    WorkerUpdate(s.detached, i, WorkerNext(w), x);
  }

  lemma StopWorkerLedger(s: State, x: Operation)
    requires Shape(s) && Enabled(s, StopWorker) && Ledgers(s, x)
    ensures Ledgers(Next(s, StopWorker), x)
  {
    var w := s.detached[0];
    WorkerUpdate(s.detached, 0, w.(queue := StopRequested(TornDown(w.queue))), x);
  }

  lemma DrainWorkerLedger(s: State, x: Operation)
    requires Shape(s) && Enabled(s, DrainWorker) && Ledgers(s, x)
    ensures Ledgers(HeadDrained(s), x)
  {
    var w := s.detached[0];
    var op := w.queue.ops[0];
    assert WorkerOk(w);
    assert w.queue.ops == [op];
    assert multiset([op])[op] == 1;
    DrainLedger(w.queue, x);
    WorkerUpdate(s.detached, 0, OperationReported(w.(queue := Drained(w.queue)), op), x);
  }

  lemma DropWorkerLedger(s: State, x: Operation)
    requires Shape(s) && Enabled(s, DropWorker) && Ledgers(s, x)
    ensures Ledgers(Next(s, DropWorker), x)
  {
    assert multiset(s.detached[0].queue.ops)[x] == 0;
  }

  lemma TakeWaitingLedger(s: State, x: Operation)
    requires Shape(s) && Enabled(s, TakeWaiting) && Ledgers(s, x)
    ensures Ledgers(Next(s, TakeWaiting), x)
  {
    TakenNextContent(s.core.lanes);
    var (op, rest) := TakenNext(s.core.lanes);
    assert Content(s.core.lanes)[x] == Content(rest)[x] + One(op.value == x);
  }

  lemma TornDownHoldsTheSame(q: Queue, x: Operation)
    ensures Owned(TornDown(q), x) == Owned(q, x) && HookCalled(TornDown(q), x) == HookCalled(q, x)
  {
  }

  lemma StopBeginLedger(s: State, x: Operation)
    requires Shape(s) && Enabled(s, StopBegin) && Ledgers(s, x)
    ensures Ledgers(Next(s, StopBegin), x)
  {
    var workers := s.core.workers;
    var torn := AllTornDown(workers);
    forall i | 0 <= i < |workers|
      ensures Owned(torn[i].queue, x) == Owned(workers[i].queue, x)
      ensures HookCalled(torn[i].queue, x) == HookCalled(workers[i].queue, x)
    {
      TornDownHoldsTheSame(workers[i].queue, x);
    }
    SameHoldings(workers, torn, x);
  }

  lemma StopDetachLedger(s: State, x: Operation)
    requires Shape(s) && Enabled(s, StopDetach) && Ledgers(s, x)
    ensures Ledgers(Next(s, StopDetach), x)
  {
    assert s.detached == [];
  }

  lemma LedgerStep(s: State, a: Action, x: Operation)
    requires Shape(s) && Enabled(s, a) && forall y :: Ledgers(s, y)
    ensures Ledgers(Next(s, a), x)
  {
    assert Ledgers(s, x);
    if a.Initialize? {
      InitializeLedger(s, a.requested, x);
    } else if a.AddBegin? || a.AddCommit? || a.Cancel? {
      CallLedger(s, a, x);
    } else if a.DispatchTurn? {
      DispatchLedger(s, x);
    } else if a.WorkerStep? {
      WorkerStepLedger(s, a.i, x);
    } else if a.DetachedStep? {
      DetachedStepLedger(s, a.i, x);
    } else {
      StopStepLedger(s, a, x);
    }
  }

  lemma CallLedger(s: State, a: Action, x: Operation)
    requires Shape(s) && Enabled(s, a) && forall y :: Ledgers(s, y)
    requires a.AddBegin? || a.AddCommit? || a.Cancel?
    ensures Ledgers(Next(s, a), x)
  {
    assert Ledgers(s, a.op);
    if a.AddBegin? {
      AddBeginLedger(s, a.op, a.priority, x);
    } else if a.AddCommit? {
      AddCommitLedger(s, a.op, x);
    } else {
      CancelTakenLedger(s, a.op, x);
    }
  }

  lemma StopStepLedger(s: State, a: Action, x: Operation)
    requires Shape(s) && Enabled(s, a) && forall y :: Ledgers(s, y)
    requires !a.Initialize? && !a.AddBegin? && !a.AddCommit? && !a.Cancel? && !a.DispatchTurn?
          && !a.WorkerStep? && !a.DetachedStep?
    ensures Ledgers(Next(s, a), x)
  {
    if a.StopBegin? {
      StopBeginLedger(s, x);
    } else if a.StopDetach? {
      StopDetachLedger(s, x);
    } else if a.StopWorker? {
      StopWorkerLedger(s, x);
    } else if a.DrainWorker? {
      DrainWorkerLedger(s, x);
    } else if a.DropWorker? {
      DropWorkerLedger(s, x);
    } else if a.TakeWaiting? {
      TakeWaitingLedger(s, x);
    } else {
      SimpleLedgers(s, a, x);
    }
  }

  /** The actions that leave the core alone. */
  lemma SimpleLedgers(s: State, a: Action, x: Operation)
    requires Enabled(s, a) && forall y :: Ledgers(s, y)
    requires a.TailHook? || a.TailDelete? || a.DispatcherExit? || a.StopJoined? || a.StopAddsDone?
          || a.WorkersGone? || a.DisposeHook? || a.DisposeDelete? || a.StopFinish?
    ensures Ledgers(Next(s, a), x)
  {
    assert Ledgers(s, x);
    if a.TailHook? {
      assert Ledgers(s, a.op);
      TailHookLedger(s, a.op, x);
    } else if a.TailDelete? {
      TailDeleteLedger(s, a.op, x);
    } else if a.DisposeHook? {
      DisposeHookLedger(s, x);
    } else if a.DisposeDelete? {
      DisposeDeleteLedger(s, x);
    }
  }

  lemma DisposeHookLedger(s: State, x: Operation)
    requires Ledgers(s, x) && Enabled(s, DisposeHook)
    ensures Ledgers(Next(s, DisposeHook), x)
  {
    assert multiset{s.disposing.value.op}[x] == One(x == s.disposing.value.op);
  }

  lemma DisposeDeleteLedger(s: State, x: Operation)
    requires Ledgers(s, x) && Enabled(s, DisposeDelete)
    ensures Ledgers(Next(s, DisposeDelete), x)
  {
    assert multiset{s.disposing.value.op}[x] == One(x == s.disposing.value.op);
  }

  lemma TailHookLedger(s: State, op: Operation, x: Operation)
    requires Ledgers(s, x) && Ledgers(s, op) && Enabled(s, TailHook(op))
    ensures Ledgers(Next(s, TailHook(op)), x)
  {
    assert multiset{op}[x] == One(x == op);
  }

  lemma TailDeleteLedger(s: State, op: Operation, x: Operation)
    requires Ledgers(s, x) && Enabled(s, TailDelete(op))
    ensures Ledgers(Next(s, TailDelete(op)), x)
  {
    assert multiset{op}[x] == One(x == op);
  }
}
