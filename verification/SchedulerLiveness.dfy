/** The scheduler cannot get stuck: without further calls every run ends, and it ends with
    everything handed over finished, whether or not a shutdown is under way. */
module SchedulerLiveness {
  import opened Operations
  import opened SchedulingPolicy
  import opened TransferQueue
  import opened SchedulerCore
  import opened SchedulerRuns
  import opened SchedulerLedger
  import opened SchedulerSafety
  import opened SchedulerTheorems

  /** Steps the program makes by itself; an idle turn of the dispatch thread is not one. */
  ghost predicate Internal(s: State, a: Action) {
    && Enabled(s, a)
    && !a.Initialize? && !a.AddBegin? && !a.Cancel? && !a.StopBegin?
    && (a.DispatchTurn? ==> Dispatched(s.core).1.Some?)
  }

  // ---------- the measure ----------

  function PhaseRank(p: Phase): nat {
    match p
    case Popped => 11
    case Reported => 10
    case AtTop => 9
    case Started => 8
    case Running => 7
    case Performing => 6
    case Performed => 5
    case Ended => 4
    case Removing => 3
    case Leaving => 1
    case Exited => 0
    case Absent => 0
  }

  ghost function WorkerMeasure(w: Worker): nat {
    11 * |w.queue.ops| + PhaseRank(w.queue.phase) + 1 + One(!w.queue.stopping)
  }

  ghost function WorkersMeasure(s: seq<Worker>): nat {
    if s == [] then 0 else WorkerMeasure(s[0]) + WorkersMeasure(s[1..])
  }

  function StageRank(stage: Stage): nat {
    match stage
    case Joining => 5
    case AwaitingAdds => 4
    case Detaching => 3
    case TearingDown => 2
    case DeletingWaiting => 1
    case NotStopping => 0
  }

  ghost function DisposalMeasure(d: Option<Disposal>): nat {
    if d.None? then 0 else if d.value.hooked then 1 else 2
  }

  ghost function Measure(s: State): nat {
    15 * |s.core.pending| + 13 * (|s.core.lanes.urgent| + |s.core.lanes.normal|)
    + WorkersMeasure(s.core.workers) + WorkersMeasure(s.detached)
    + 2 * |s.leaving| + |s.left| + DisposalMeasure(s.disposing)
    + One(s.dispatching) + StageRank(s.stage)
  }

  lemma {:induction false} MeasureUpdate(s: seq<Worker>, i: nat, w: Worker)
    requires i < |s|
    ensures WorkersMeasure(s[i := w]) + WorkerMeasure(s[i]) == WorkersMeasure(s) + WorkerMeasure(w)
  {
    if i > 0 {
      assert s[i := w][1..] == s[1..][i - 1 := w];
      MeasureUpdate(s[1..], i - 1, w);
    } else {
      assert s[i := w][1..] == s[1..];
    }
  }

  lemma WorkerNextDecreases(w: Worker)
    requires WorkerOk(w) && CanStep([w], 0)
    ensures WorkerMeasure(WorkerNext(w)) < WorkerMeasure(w)
  {
    assert LoopEnabled([w][0].queue);
  }

  lemma DispatchDecreases(s: State)
    requires Shape(s) && Internal(s, DispatchTurn)
    ensures Measure(Next(s, DispatchTurn)) < Measure(s)
  {
    var c := s.core;
    var Dispatch(i, op) := Dispatched(c).1.value;
    assert WorkerOk(c.workers[i]);
    AssignedOk(c.workers[i], op);
    MeasureUpdate(c.workers, i, Assigned(c.workers[i], op));
  }

  lemma CommitDecreases(s: State, op: Operation)
    requires Internal(s, AddCommit(op))
    ensures Measure(Committed(s, op)) < Measure(s)
  {
    CommitMovesOne(s.core, op);
    assert |s.leaving + {op}| <= |s.leaving| + 1;
  }

  lemma CommitMovesOne(c: Core, op: Operation)
    requires exists k :: 0 <= k < |c.pending| && c.pending[k].op == op
    ensures var (d, admitted) := AddCommitted(c, op);
      && |d.pending| == |c.pending| - 1 && d.workers == c.workers
      && |d.lanes.urgent| + |d.lanes.normal| == |c.lanes.urgent| + |c.lanes.normal| + if admitted then 1 else 0
  {
    var i := FirstMatching(c.pending, PendingFor(op));
    var k :| 0 <= k < |c.pending| && c.pending[k].op == op;
    assert PendingFor(op)(c.pending[k]);
  }

  lemma DrainDecreases(s: State)
    requires Shape(s) && Enabled(s, DrainWorker)
    ensures Measure(HeadDrained(s)) < Measure(s)
  {
    var w := s.detached[0];
    MeasureUpdate(s.detached, 0, OperationReported(w.(queue := Drained(w.queue)), w.queue.ops[0]));
  }

  lemma StepDecreases(s: State, a: Action)
    requires Shape(s) && Internal(s, a)
    ensures Measure(Next(s, a)) < Measure(s)
  {
    match a
    case AddCommit(op) => CommitDecreases(s, op);
    case DispatchTurn => DispatchDecreases(s);
    case WorkerStep(i) => WorkerStepDecreases(s, i);
    case DetachedStep(i) => DetachedStepDecreases(s, i);
    case StopWorker => StopWorkerDecreases(s);
    case DrainWorker => DrainDecreases(s);
    case TakeWaiting => TakeWaitingDecreases(s);
    case TailHook(op) => TailDecreases(s, op);
    case TailDelete(op) => TailDecreases(s, op);
    case _ => StageDecreases(s, a);
  }

  lemma WorkerStepDecreases(s: State, i: nat)
    requires Shape(s) && Enabled(s, WorkerStep(i))
    ensures Measure(Next(s, WorkerStep(i))) < Measure(s)
  {
    var w := s.core.workers[i];
    WorkerNextDecreases(w);
    MeasureUpdate(s.core.workers, i, WorkerNext(w));
  }

  lemma DetachedStepDecreases(s: State, i: nat)
    requires Shape(s) && Enabled(s, DetachedStep(i))
    ensures Measure(Next(s, DetachedStep(i))) < Measure(s)
  {
    var w := s.detached[i];
    WorkerNextDecreases(w);
    MeasureUpdate(s.detached, i, WorkerNext(w));
  }

  lemma StopWorkerDecreases(s: State)
    requires Enabled(s, StopWorker)
    ensures Measure(Next(s, StopWorker)) < Measure(s)
  {
    var w := s.detached[0];
    MeasureUpdate(s.detached, 0, w.(queue := StopRequested(TornDown(w.queue))));
  }

  lemma TakeWaitingDecreases(s: State)
    requires Enabled(s, TakeWaiting)
    ensures Measure(Next(s, TakeWaiting)) < Measure(s)
  {
    TakenNextContent(s.core.lanes);
  }

  lemma TailDecreases(s: State, op: Operation)
    ensures Enabled(s, TailHook(op)) ==> Measure(Next(s, TailHook(op))) < Measure(s)
    ensures Enabled(s, TailDelete(op)) ==> Measure(Next(s, TailDelete(op))) < Measure(s)
  {
    assert |s.left + {op}| <= |s.left| + 1;
  }

  lemma StageDecreases(s: State, a: Action)
    requires Shape(s) && Internal(s, a)
    requires a.DispatcherExit? || a.StopJoined? || a.StopAddsDone? || a.StopDetach? || a.DropWorker?
          || a.WorkersGone? || a.DisposeHook? || a.DisposeDelete? || a.StopFinish?
    ensures Measure(Next(s, a)) < Measure(s)
  {
  }

  ghost predicate IsInternalRun(start: State, actions: seq<Action>, end: State)
    decreases |actions|
  {
    if actions == [] then end == start
    else Internal(start, actions[0]) && IsInternalRun(Next(start, actions[0]), actions[1..], end)
  }

  lemma {:induction false} InternalRunsAreShort(start: State, actions: seq<Action>, end: State)
    requires StateInv(start) && IsInternalRun(start, actions, end)
    ensures StateInv(end) && |actions| + Measure(end) <= Measure(start)
    decreases |actions|
  {
    if actions != [] {
      StepKeepsInv(start, actions[0]);
      StepDecreases(start, actions[0]);
      InternalRunsAreShort(Next(start, actions[0]), actions[1..], end);
    }
  }

  // ---------- where a run can end ----------

  ghost predicate Quiet(s: State) {
    forall a :: !Internal(s, a)
  }

  /** The thread of the first worker being torn down, or its owner, can always go on. */
  lemma HeadProgress(s: State) returns (a: Action)
    requires Shape(s) && s.stage == TearingDown && s.detached != []
    ensures Internal(s, a)
  {
    var w := s.detached[0];
    assert WorkerOk(w);
    if !w.queue.stopping {
      a := StopWorker;
    } else if w.queue.phase == Exited {
      a := if w.queue.ops == [] then DropWorker else DrainWorker;
    } else {
      a := DetachedStep(0);
    }
  }

  /** A shutdown under way always has a next step. */
  lemma StopProgress(s: State) returns (a: Action)
    requires Shape(s) && s.stage != NotStopping
    ensures Internal(s, a)
  {
    match s.stage
    case Joining => a := if s.dispatching then DispatcherExit else StopJoined;
    case AwaitingAdds => a := if s.core.pending == [] then StopAddsDone else CommitProgress(s);
    case Detaching => a := StopDetach;
    case TearingDown =>
      if s.detached == [] {
        a := WorkersGone;
      } else {
        a := HeadProgress(s);
      }
    case DeletingWaiting =>
      a := if s.disposing.Some? then (if s.disposing.value.hooked then DisposeDelete else DisposeHook)
           else if s.core.lanes == Lanes([], []) then StopFinish else TakeWaiting;
  }

  ghost function CommitProgress(s: State): (a: Action)
    requires s.core.pending != []
    ensures Internal(s, a)
  {
    var p := s.core.pending[0];
    assert 0 < |s.core.pending| && s.core.pending[0].op == p.op;
    AddCommit(p.op)
  }

  lemma QuietNotStopping(s: State)
    requires Shape(s) && Quiet(s)
    ensures s.stage == NotStopping
  {
    if s.stage != NotStopping {
      var a := StopProgress(s);
    }
  }

  lemma QuietWorker(s: State, i: nat)
    requires Shape(s) && Quiet(s) && i < |s.core.workers|
    ensures IsIdle(s.core.workers[i]) && s.core.workers[i].queue.phase == AtTop
  {
    assert WorkerOk(s.core.workers[i]);
    assert !Internal(s, WorkerStep(i));
  }

  /** Whenever something waits in a lane and no worker holds an operation, a turn of the
      dispatch thread hands one out. */
  lemma IdleWorkersGetWork(s: State)
    requires Shape(s) && Enabled(s, DispatchTurn) && s.core.lanes != Lanes([], [])
    requires forall i :: 0 <= i < |s.core.workers| ==> s.core.workers[i].operations == []
    ensures Dispatched(s.core).1.Some?
  {
    var c := s.core;
    assert WorkerOk(c.workers[0]);
    assert FirstIdle(c.workers) == 0;
    TakenContent(c.lanes, FreeOfConflict(c.workers));
    var op := if c.lanes.urgent != [] then c.lanes.urgent[0] else c.lanes.normal[0];
    assert Waits(c.lanes, op) && FreeOfConflict(c.workers)(op);
  }

  lemma {:induction false} IdleWorkersOwnNothing(s: seq<Worker>, x: Operation)
    requires forall i :: 0 <= i < |s| ==> s[i].queue.ops == [] && s[i].queue.phase == AtTop
    ensures WorkersOwn(s, x) == 0 && WorkersHooked(s, x) == 0
  {
    if s != [] {
      IdleWorkersOwnNothing(s[1..], x);
    }
  }

  /** A state in which the program has nothing left to do. */
  ghost predicate NothingLeft(s: State) {
    && s.stage == NotStopping && s.core.pending == [] && s.core.lanes == Lanes([], [])
    && s.leaving == {} && s.left == {} && s.detached == [] && s.disposing.None?
    && forall i :: 0 <= i < |s.core.workers| ==> IsIdle(s.core.workers[i])
  }

  lemma QuietIsDrained(s: State)
    requires StateInv(s) && Quiet(s)
    ensures NothingLeft(s) && AllFinished(s)
  {
    QuietNotStopping(s);
    forall i | 0 <= i < |s.core.workers|
      ensures IsIdle(s.core.workers[i]) && s.core.workers[i].queue.phase == AtTop
    {
      QuietWorker(s, i);
    }
    if s.core.pending != [] {
      var a := CommitProgress(s);
    }
    if s.core.lanes != Lanes([], []) {
      IdleWorkersGetWork(s);
    }
    assert !Internal(s, DispatchTurn);
    forall x ensures x !in s.leaving && x !in s.left {
      assert !Internal(s, TailHook(x)) && !Internal(s, TailDelete(x));
    }
    assert s.leaving == {} && s.left == {};
    forall x | x in s.handed ensures s.hooked[x] == 1 && s.deleted[x] == 1 {
      assert Ledgers(s, x);
      IdleWorkersOwnNothing(s.core.workers, x);
    }
  }

  /** From any reachable state, the steps the program makes without further calls are at most
      `Measure` many, and when none is left everything handed over is finished: idle workers
      if the scheduler runs on, a completed Deinitialize if one had begun. */
  lemma EveryRunDrains(before: seq<Action>, s: State, actions: seq<Action>, t: State)
    requires IsRun(INITIAL, before, s) && IsInternalRun(s, actions, t)
    ensures |actions| <= Measure(s)
    ensures Quiet(t) ==> NothingLeft(t) && AllFinished(t)
    ensures Quiet(t) && s.core.stopping ==> Down(t)
  {
    ReachableInv(before, s);
    InternalRunsAreShort(s, actions, t);
    if Quiet(t) {
      QuietIsDrained(t);
      if s.core.stopping {
        StaysStopping(s, actions, t);
      }
    }
  }

  lemma {:induction false} StaysStopping(s: State, actions: seq<Action>, t: State)
    requires StateInv(s) && IsInternalRun(s, actions, t) && (s.core.stopping || !s.core.running)
    ensures t.core.stopping || !t.core.running
    decreases |actions|
  {
    if actions != [] {
      StepKeepsInv(s, actions[0]);
      StoppingStep(s, actions[0]);
      StaysStopping(Next(s, actions[0]), actions[1..], t);
    }
  }

  lemma StoppingStep(s: State, a: Action)
    requires Internal(s, a) && (s.core.stopping || !s.core.running)
    ensures var t := Next(s, a); t.core.stopping || !t.core.running
  {
  }
}
