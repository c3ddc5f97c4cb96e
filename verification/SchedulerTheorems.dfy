/** What the scheduler promises, over all interleavings. */
module SchedulerTheorems {
  import opened Operations
  import opened SchedulingPolicy
  import opened TransferQueue
  import opened SchedulerCore
  import opened SchedulerRuns
  import opened SchedulerLedger
  import opened SchedulerSafety

  // ---------- exclusion ----------

  predicate Separate(workers: seq<Worker>) {
    && (forall i :: 0 <= i < |workers| ==>
          var w := workers[i];
          && |w.operations| <= 1
          && (forall op :: op in w.queue.ops ==> op in w.operations)
          && (w.operations == [] ==> w.queue.ops == [])
          && (w.queue.performing ==> w.queue.active.Some? && w.queue.active.value in w.operations))
    && (forall i, j :: 0 <= i < |workers| && 0 <= j < |workers| && i != j ==>
          forall a, b :: a in workers[i].operations && b in workers[j].operations ==> !Conflicts(a, b))
  }

  lemma OkIsSeparate(workers: seq<Worker>)
    requires WorkersOk(workers) && Exclusive(workers)
    ensures Separate(workers)
  {
    forall i | 0 <= i < |workers|
      ensures var w := workers[i];
        && |w.operations| <= 1
        && (forall op :: op in w.queue.ops ==> op in w.operations)
        && (w.operations == [] ==> w.queue.ops == [])
        && (w.queue.performing ==> w.queue.active.Some? && w.queue.active.value in w.operations)
    {
      assert WorkerOk(workers[i]);
    }
    forall i, j, a, b | 0 <= i < |workers| && 0 <= j < |workers| && i != j
      && a in workers[i].operations && b in workers[j].operations
      ensures !Conflicts(a, b)
    {
      if i < j {
        assert Apart(workers[i], workers[j]);
      } else {
        assert Apart(workers[j], workers[i]);
      }
    }
  }

  /** No two workers hold or perform uploads with the same paths; a worker holds at most one
      operation; what it performs is assigned to it; an unassigned worker has an empty queue. */
  lemma NoTwoWorkersConflict(actions: seq<Action>, s: State)
    requires IsRun(INITIAL, actions, s)
    ensures Separate(s.core.workers) && Separate(s.detached)
    ensures s.core.workers == [] || s.detached == []
  {
    ReachableInv(actions, s);
    OkIsSeparate(s.core.workers);
    OkIsSeparate(s.detached);
  }

  // ---------- ownership ----------

  /** Nothing is in two places, nothing still listed has been deleted, and the terminal hook
      and the deletion happen at most once, the hook first. */
  lemma OneOwner(actions: seq<Action>, s: State, x: Operation)
    requires IsRun(INITIAL, actions, s)
    ensures PendingCount(s.core.pending, x) + multiset(s.core.lanes.urgent)[x] + multiset(s.core.lanes.normal)[x]
          + WorkersOwn(s.core.workers, x) + WorkersOwn(s.detached, x) + s.deleted[x] <= One(x in s.handed)
    ensures s.deleted[x] <= s.hooked[x] <= 1
  {
    ReachableInv(actions, s);
    assert Ledgers(s, x);
    HookedAtMostPlaces(s.core.workers, x);
    HookedAtMostPlaces(s.detached, x);
  }

  lemma {:induction false} HookedAtMostPlaces(s: seq<Worker>, x: Operation)
    requires WorkersOk(s)
    ensures WorkersHooked(s, x) <= WorkersOwn(s, x)
  {
    if s != [] {
      HookedAtMostPlaces(s[1..], x);
      assert WorkerOk(s[0]);
      if HookCalled(s[0].queue, x) && !HeldByThread(s[0].queue, x) {
        assert x in s[0].queue.ops;
        assert multiset(s[0].queue.ops)[x] > 0;
      }
    }
  }

  /** The branches of the worker queue that refuse or drop an operation are never taken by a
      dispatch: they would leave a deleted operation in the worker's list. */
  lemma DispatchIsAdmitted(actions: seq<Action>, s: State)
    requires IsRun(INITIAL, actions, s) && Enabled(s, DispatchTurn)
    ensures var (core, dispatch) := Dispatched(s.core);
      dispatch.Some? ==>
        var Dispatch(i, op) := dispatch.value;
        && Admit(s.core.workers[i].queue, op) == Accepted
        && core.workers[i].operations == [op] && core.workers[i].queue.ops == [op]
  {
    ReachableInv(actions, s);
    var (core, dispatch) := Dispatched(s.core);
    if dispatch.Some? {
      var Dispatch(i, op) := dispatch.value;
      assert WorkerOk(s.core.workers[i]);
      AssignedOk(s.core.workers[i], op);
      AssignedLedger(s.core.workers[i], op, op);
    }
  }

  // ---------- shutdown ----------

  /** Deinitialize has returned, or the scheduler was never started. */
  predicate Down(s: State) {
    !s.core.running && s.stage == NotStopping
  }

  ghost predicate AllFinished(s: State) {
    forall x :: x in s.handed ==> s.hooked[x] == 1 && s.deleted[x] == 1
  }

  /** Once Deinitialize has returned, every operation ever handed over has had its terminal
      hook called once and been deleted once, exactly when no AddQueueOp or CancelQueueOp
      call is still finishing an operation it took out of the lists. */
  lemma ShutdownFinishesEverything(actions: seq<Action>, s: State)
    requires IsRun(INITIAL, actions, s) && Down(s)
    ensures AllFinished(s) <==> s.leaving == {} && s.left == {}
    ensures forall x :: x in s.handed && x !in s.leaving && x !in s.left ==> s.hooked[x] == 1 && s.deleted[x] == 1
  {
    ReachableInv(actions, s);
    forall x | x in s.handed && x !in s.leaving && x !in s.left
      ensures s.hooked[x] == 1 && s.deleted[x] == 1
    {
      assert Ledgers(s, x);
    }
    forall x | x in s.leaving + s.left
      ensures x in s.handed && s.deleted[x] == 0
    {
      assert Ledgers(s, x);
    }
    if s.leaving + s.left != {} {
      var x :| x in s.leaving + s.left;
      assert x in s.handed && s.deleted[x] == 0;
    }
  }

  ghost predicate Reached(s: State) {
    exists actions :: IsRun(INITIAL, actions, s)
  }

  lemma {:induction false} RunExtends(start: State, actions: seq<Action>, s: State, a: Action)
    requires IsRun(start, actions, s) && Enabled(s, a)
    ensures IsRun(start, actions + [a], Next(s, a))
    decreases |actions|
  {
    if actions == [] {
      assert actions + [a] == [a];
      assert IsRun(Next(s, a), [a][1..], Next(s, a));
    } else {
      assert (actions + [a])[1..] == actions[1..] + [a];
      RunExtends(Next(start, actions[0]), actions[1..], s, a);
    }
  }

  lemma ReachedNext(s: State, a: Action)
    requires Reached(s) && Enabled(s, a)
    ensures Reached(Next(s, a))
  {
    var actions :| IsRun(INITIAL, actions, s);
    RunExtends(INITIAL, actions, s, a);
  }

  /** The states of one particular shutdown with a single worker and a single add. */
  function Scene(
    workers: seq<Worker>, detached: seq<Worker>, pending: seq<Pending>,
    stage: Stage, dispatching: bool, leaving: set<Operation>, op: Operation): State
  {
    State(Core(true, stage != NotStopping, stage == NotStopping, Lanes([], []), pending, workers),
          detached, dispatching, stage, leaving, {}, None, {op}, multiset{}, multiset{}, multiset{}, multiset{}, {op})
  }

  const TORN := FRESH_QUEUE.(teardown := true)
  const HALTING := TORN.(stopping := true)

  lemma SceneAdding(op: Operation)
    ensures Reached(Scene([Worker([], FRESH_QUEUE)], [], [Pending(op, Normal, false)], NotStopping, true, {}, op))
  {
    assert IsRun(INITIAL, [], INITIAL);
    var s := Take(INITIAL, Initialize(1));
    assert s.core.workers == [Worker([], FRESH_QUEUE)];
    s := Take(s, AddBegin(op, Normal));
    assert s.core.pending == [] + [Pending(op, Normal, false)] == [Pending(op, Normal, false)];
    assert s.handed == {op} && s.leaving == {};
  }

  lemma SceneStopping(op: Operation)
    ensures Reached(Scene([Worker([], TORN)], [], [Pending(op, Normal, false)], AwaitingAdds, false, {}, op))
  {
    SceneAdding(op);
    var s := Take(Scene([Worker([], FRESH_QUEUE)], [], [Pending(op, Normal, false)], NotStopping, true, {}, op), StopBegin);
    assert s.core.workers == [Worker([], TORN)];
    s := Take(s, DispatcherExit);
    s := Take(s, StopJoined);
  }

  lemma SceneCommitted(op: Operation)
    ensures Reached(Scene([], [Worker([], TORN)], [], TearingDown, false, {op}, op))
  {
    SceneStopping(op);
    var p := [Pending(op, Normal, false)];
    assert p[0].op == op && PendingFor(op)(p[0]) && FirstMatching(p, PendingFor(op)) == 0;
    var s := Take(Scene([Worker([], TORN)], [], p, AwaitingAdds, false, {}, op), AddCommit(op));
    assert s.core.pending == p[..0] + p[1..] == [];
    assert s.leaving == {op};
    s := Take(s, StopAddsDone);
    s := Take(s, StopDetach);
  }

  lemma SceneWorkerGone(op: Operation)
    ensures Reached(Scene([], [Worker([], HALTING.(phase := Exited))], [], TearingDown, false, {op}, op))
  {
    SceneCommitted(op);
    var s := Take(Scene([], [Worker([], TORN)], [], TearingDown, false, {op}, op), StopWorker);
    assert s.detached == [Worker([], HALTING)];
    s := Take(s, DetachedStep(0));
    assert s.detached == [Worker([], HALTING.(phase := Leaving))];
    SceneWorkerLeft(op);
  }

  lemma SceneWorkerLeft(op: Operation)
    requires Reached(Scene([], [Worker([], HALTING.(phase := Leaving))], [], TearingDown, false, {op}, op))
    ensures Reached(Scene([], [Worker([], HALTING.(phase := Exited))], [], TearingDown, false, {op}, op))
  {
    var s := Take(Scene([], [Worker([], HALTING.(phase := Leaving))], [], TearingDown, false, {op}, op), DetachedStep(0));
    assert s.detached == [Worker([], HALTING.(phase := Exited))];
  }

  lemma SceneEmpty(op: Operation)
    ensures Reached(Scene([], [], [], TearingDown, false, {op}, op))
  {
    SceneWorkerGone(op);
    var s := Take(Scene([], [Worker([], HALTING.(phase := Exited))], [], TearingDown, false, {op}, op), DropWorker);
    assert s.detached == [];
  }

  /** The condition is needed: a whole shutdown can return while the add that it cancelled
      still owns its operation. */
  lemma ShutdownCanLeaveATail(op: Operation) returns (s: State)
    ensures Reached(s) && Down(s) && !AllFinished(s)
    ensures s.hooked == multiset{} && s.deleted == multiset{} && s.handed != {}
  {
    SceneEmpty(op);
    s := Take(Scene([], [], [], TearingDown, false, {op}, op), WorkersGone);
    s := Take(s, StopFinish);
    assert op in s.handed && s.deleted[op] == 0;
  }

  lemma Take(s: State, a: Action) returns (t: State)
    requires Reached(s) && Enabled(s, a)
    ensures Reached(t) && t == Next(s, a)
  {
    ReachedNext(s, a);
    t := Next(s, a);
  }

  // ---------- duplicates ----------

  predicate IsAssigned(workers: seq<Worker>, op: Operation) {
    exists i :: 0 <= i < |workers| && op in workers[i].operations
  }

  /** An identity has at most one waiting operation and, for uploads, at most one assigned. */
  lemma OneWaitingOneActive(actions: seq<Action>, s: State, a: Operation, b: Operation)
    requires IsRun(INITIAL, actions, s) && Equals(a, b)
    ensures IsWaiting(s.core, a) && IsWaiting(s.core, b) ==> a == b
    ensures a.queueType == Upload && IsAssigned(s.core.workers, a) && IsAssigned(s.core.workers, b) ==> a == b
  {
    ReachableInv(actions, s);
    if a.queueType == Upload && IsAssigned(s.core.workers, a) && IsAssigned(s.core.workers, b) {
      OneAssigned(s.core.workers, a, b);
    }
  }

  lemma OneAssigned(workers: seq<Worker>, a: Operation, b: Operation)
    requires WorkersOk(workers) && Exclusive(workers)
    requires IsAssigned(workers, a) && IsAssigned(workers, b) && Conflicts(a, b)
    ensures a == b
  {
    var i :| 0 <= i < |workers| && a in workers[i].operations;
    var j :| 0 <= j < |workers| && b in workers[j].operations;
    if i != j {
      NoConflictBetween(workers, i, j, a, b);
    }
    AtMostOne(workers[i], a, b);
  }

  lemma NoConflictBetween(workers: seq<Worker>, i: nat, j: nat, a: Operation, b: Operation)
    requires Exclusive(workers) && i < |workers| && j < |workers| && i != j
    requires a in workers[i].operations && b in workers[j].operations
    ensures !Conflicts(a, b)
  {
    if i < j {
      assert Apart(workers[i], workers[j]);
    } else {
      assert Apart(workers[j], workers[i]);
    }
  }

  lemma AtMostOne(w: Worker, a: Operation, b: Operation)
    requires WorkerOk(w)
    ensures a in w.operations && b in w.operations ==> a == b
  {
  }

  function WaitingCount(c: Core): nat {
    |c.lanes.urgent| + |c.lanes.normal| + |c.pending|
  }

  ghost predicate IsUrgent(c: Core, op: Operation) {
    || op in c.lanes.urgent
    || exists i :: 0 <= i < |c.pending| && c.pending[i].op == op && c.pending[i].priority == Urgent
  }

  /** While the scheduler accepts, an add is merged exactly when an equal operation waits; the
      waiting count does not change, and an urgent add makes the waiting one urgent. */
  lemma MergeKeepsCountAndPromotes(c: Core, op: Operation, priority: Priority)
    requires c.accepting
    ensures var (d, verdict) := AddBegun(c, op, priority);
      && (verdict == Merged <==> exists w :: IsWaiting(c, w) && Equals(op, w))
      && WaitingCount(d) == WaitingCount(c) + One(verdict == Admitted)
      && (verdict == Merged && priority == Urgent ==>
            exists w :: IsWaiting(c, w) && IsWaiting(d, w) && Equals(op, w) && IsUrgent(d, w))
      && (verdict == Merged && priority == Normal ==> d == c)
  {
    var (d, verdict) := AddBegun(c, op, priority);
    var duplicate := Found(c.lanes, EqualTo(op));
    var i := FirstMatching(c.pending, PendingEqualTo(op));
    if duplicate.Some? {
      assert IsWaiting(c, duplicate.value) && Equals(op, duplicate.value);
      PromotedContent(c.lanes, duplicate.value);
      PromotedSize(c.lanes, duplicate.value);
      if priority == Urgent {
        assert IsWaiting(d, duplicate.value) && IsUrgent(d, duplicate.value);
      }
    } else if i < |c.pending| {
      var w := c.pending[i].op;
      assert PendingEqualTo(op)(c.pending[i]);
      assert IsWaiting(c, w) && Equals(op, w);
      if priority == Urgent {
        assert d.pending[i].op == w && d.pending[i].priority == Urgent && !d.pending[i].canceled;
        assert IsWaiting(d, w) && IsUrgent(d, w);
      }
    } else {
      forall w | IsWaiting(c, w) ensures !Equals(op, w) {
        if Waits(c.lanes, w) {
          assert !EqualTo(op)(w);
        } else {
          var k :| 0 <= k < |c.pending| && c.pending[k].op == w && !c.pending[k].canceled;
          assert !PendingEqualTo(op)(c.pending[k]);
        }
      }
    }
  }

  lemma PromotedSize(l: Lanes, op: Operation)
    ensures |Promoted(l, op).urgent| + |Promoted(l, op).normal| == |l.urgent| + |l.normal|
  {
    if op !in l.urgent && op in l.normal {
      var k := FirstIndexOf(l.normal, op);
      assert Erased(l.normal, op) == RemoveAt(l.normal, k);
    }
  }

  // ---------- priority and order ----------

  /** A dispatched operation conflicts with nothing assigned; a normal one is taken only when
      every urgent one conflicts; nothing earlier in its lane has the same paths. */
  lemma DispatchRespectsPriority(c: Core)
    ensures var (d, dispatch) := Dispatched(c);
      dispatch.Some? ==>
        var Dispatch(i, op) := dispatch.value;
        && !WorkerConflict(c.workers, op)
        && (op in c.lanes.urgent || forall u :: u in c.lanes.urgent ==> WorkerConflict(c.workers, u))
        && var lane := if d.lanes.urgent != c.lanes.urgent then c.lanes.urgent else c.lanes.normal;
           exists k ::
             && 0 <= k < |lane| && lane[k] == op
             && (d.lanes == if d.lanes.urgent != c.lanes.urgent
                            then c.lanes.(urgent := RemoveAt(lane, k)) else c.lanes.(normal := RemoveAt(lane, k)))
             && (forall j :: 0 <= j < k ==> WorkerConflict(c.workers, lane[j]) && !Conflicts(lane[j], op))
  {
    var (d, dispatch) := Dispatched(c);
    if dispatch.Some? {
      var Dispatch(i, op) := dispatch.value;
      var free := FreeOfConflict(c.workers);
      var u := FirstMatching(c.lanes.urgent, free);
      var n := FirstMatching(c.lanes.normal, free);
      var lane, k := if u < |c.lanes.urgent| then c.lanes.urgent else c.lanes.normal, if u < |c.lanes.urgent| then u else n;
      assert lane[k] == op && free(op);
      forall j | 0 <= j < k ensures WorkerConflict(c.workers, lane[j]) && !Conflicts(lane[j], op) {
        assert !free(lane[j]);
        ConflictIsShared(c.workers, lane[j], op);
      }
      if u < |c.lanes.urgent| {
        assert |d.lanes.urgent| == |c.lanes.urgent| - 1;
      } else {
        forall x | x in c.lanes.urgent ensures WorkerConflict(c.workers, x) {
          var j :| 0 <= j < |c.lanes.urgent| && c.lanes.urgent[j] == x;
          assert !free(c.lanes.urgent[j]);
        }
      }
    }
  }

  lemma ConflictIsShared(workers: seq<Worker>, a: Operation, b: Operation)
    requires WorkerConflict(workers, a)
    ensures Conflicts(a, b) ==> WorkerConflict(workers, b)
  {
    var i :| 0 <= i < |workers| && ConflictsWithAny(a, workers[i].operations);
    var j :| 0 <= j < |workers[i].operations| && Conflicts(a, workers[i].operations[j]);
    assert Conflicts(a, b) ==> Conflicts(b, workers[i].operations[j]);
    assert Conflicts(a, b) ==> ConflictsWithAny(b, workers[i].operations);
  }
}
