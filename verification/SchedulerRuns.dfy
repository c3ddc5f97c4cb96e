/** The scheduler as a protocol: any number of threads adding and cancelling, the dispatch
    thread, the thread of every worker and the thread inside Deinitialize, interleaved at
    the granularity of monitor sections. */
module SchedulerRuns {
  import opened Operations
  import opened SchedulingPolicy
  import opened TransferQueue
  import opened SchedulerCore

  /** How far Deinitialize has come. */
  datatype Stage = NotStopping | Joining | AwaitingAdds | Detaching | TearingDown | DeletingWaiting

  datatype Disposal = Disposal(op: Operation, hooked: bool)

  /** `leaving` holds the operations that an AddQueueOp or CancelQueueOp call has taken out of
      every list and will cancel and delete after leaving the monitor; `left` those among them
      whose terminal hook that call has already called. `hooked` and `deleted` count the calls
      of the terminal hook and the deletions, ever; `performed` counts the calls of Perform and
      `spared` the operations that went without one. `admitted` holds the operations that an
      add has not refused or merged. */
  datatype State = State(
    core: Core, detached: seq<Worker>, dispatching: bool, stage: Stage,
    leaving: set<Operation>, left: set<Operation>, disposing: Option<Disposal>,
    handed: set<Operation>, hooked: multiset<Operation>, deleted: multiset<Operation>,
    performed: multiset<Operation>, spared: multiset<Operation>, admitted: set<Operation>)

  const INITIAL :=
    State(IDLE, [], false, NotStopping, {}, {}, None, {}, multiset{}, multiset{}, multiset{}, multiset{}, {})

  datatype Action =
    | Initialize(requested: int)
    | AddBegin(op: Operation, priority: Priority)
    | AddCommit(op: Operation)
    | TailHook(op: Operation)
    | TailDelete(op: Operation)
    | Cancel(op: Operation)
    | DispatchTurn
    | DispatcherExit
    | WorkerStep(i: nat)
    | DetachedStep(i: nat)
    | StopBegin
    | StopJoined
    | StopAddsDone
    | StopDetach
    | StopWorker
    | DrainWorker
    | DropWorker
    | WorkersGone
    | TakeWaiting
    | DisposeHook
    | DisposeDelete
    | StopFinish

  predicate HeadExited(s: State) {
    s.stage == TearingDown && s.detached != [] && s.detached[0].queue.phase == Exited
  }

  predicate CanStep(workers: seq<Worker>, i: nat) {
    i < |workers| && LoopEnabled(workers[i].queue)
    && (workers[i].queue.phase == Removing ==> workers[i].queue.ops != [])
  }

  /** Operation objects are handed over once; everything else is the program's own order. */
  predicate Enabled(s: State, a: Action) {
    match a
    case Initialize(_) => !s.core.running && !s.core.stopping
    case AddBegin(op, _) => op !in s.handed
    case AddCommit(op) => exists i :: 0 <= i < |s.core.pending| && s.core.pending[i].op == op
    case TailHook(op) => op in s.leaving
    case TailDelete(op) => op in s.left
    case Cancel(_) => FrontsExist(s.core.workers)
    case DispatchTurn => s.dispatching && !s.core.stopping
    case DispatcherExit => s.dispatching && s.core.stopping
    case WorkerStep(i) => CanStep(s.core.workers, i)
    case DetachedStep(i) => CanStep(s.detached, i)
    case StopBegin => s.core.running && !s.core.stopping
    case StopJoined => s.stage == Joining && !s.dispatching
    case StopAddsDone => s.stage == AwaitingAdds && s.core.pending == []
    case StopDetach => s.stage == Detaching
    case StopWorker => s.stage == TearingDown && s.detached != [] && !s.detached[0].queue.stopping
    case DrainWorker => HeadExited(s) && s.detached[0].queue.ops != []
    case DropWorker => HeadExited(s) && s.detached[0].queue.ops == []
    case WorkersGone => s.stage == TearingDown && s.detached == []
    case TakeWaiting => s.stage == DeletingWaiting && s.disposing.None? && s.core.lanes != Lanes([], [])
    case DisposeHook => s.disposing.Some? && !s.disposing.value.hooked
    case DisposeDelete => s.disposing.Some? && s.disposing.value.hooked
    case StopFinish => s.stage == DeletingWaiting && s.disposing.None? && s.core.lanes == Lanes([], [])
  }

  ghost function Next(s: State, a: Action): State
    requires Enabled(s, a)
  {
    match a
    case Initialize(requested) =>
      s.(core := Initialized(s.core, WorkerCount(requested)), dispatching := true)
    case AddBegin(op, priority) => Begun(s, op, priority)
    case AddCommit(op) => Committed(s, op)
    case TailHook(op) => s.(leaving := s.leaving - {op}, left := s.left + {op}, hooked := s.hooked + multiset{op})
    case TailDelete(op) =>
      s.(left := s.left - {op}, deleted := s.deleted + multiset{op}, spared := s.spared + multiset{op})
    case Cancel(op) => CancelTaken(s, op)
    case DispatchTurn => s.(core := Dispatched(s.core).0)
    case DispatcherExit => s.(dispatching := false)
    case WorkerStep(i) =>
      Stepped(s, s.core.workers[i]).(core := s.core.(workers := s.core.workers[i := WorkerNext(s.core.workers[i])]))
    case DetachedStep(i) =>
      Stepped(s, s.detached[i]).(detached := s.detached[i := WorkerNext(s.detached[i])])
    case StopBegin => s.(core := StopBegun(s.core), stage := Joining)
    case StopJoined => s.(stage := AwaitingAdds)
    case StopAddsDone => s.(stage := Detaching)
    case StopDetach => s.(core := s.core.(workers := []), detached := s.core.workers, stage := TearingDown)
    case StopWorker =>
      var w := s.detached[0];
      s.(detached := s.detached[0 := w.(queue := StopRequested(TornDown(w.queue)))])
    case DrainWorker => HeadDrained(s)
    case DropWorker => s.(detached := s.detached[1..])
    case WorkersGone => s.(stage := DeletingWaiting)
    case TakeWaiting =>
      TakenNextContent(s.core.lanes);
      var (op, rest) := TakenNext(s.core.lanes);
      s.(core := s.core.(lanes := rest), disposing := Some(Disposal(op.value, false)))
    case DisposeHook =>
      var op := s.disposing.value.op;
      s.(disposing := Some(Disposal(op, true)), hooked := s.hooked + multiset{op})
    case DisposeDelete =>
      var op := multiset{s.disposing.value.op};
      s.(disposing := None, deleted := s.deleted + op, spared := s.spared + op)
    case StopFinish => s.(core := Stopped(s.core), stage := NotStopping)
  }

  ghost function Begun(s: State, op: Operation, priority: Priority): State {
    var (core, verdict) := AddBegun(s.core, op, priority);
    s.(core := core, handed := s.handed + {op},
       leaving := (if verdict == Admitted then s.leaving else s.leaving + {op}),
       admitted := if verdict == Admitted then s.admitted + {op} else s.admitted)
  }

  ghost function Committed(s: State, op: Operation): State {
    var (core, admitted) := AddCommitted(s.core, op);
    s.(core := core, leaving := if admitted then s.leaving else s.leaving + {op})
  }

  /** An operation taken from a worker is cancelled, hooked and deleted inside the section. */
  ghost function CancelTaken(s: State, op: Operation): State
    requires FrontsExist(s.core.workers)
  {
    var (core, verdict) := Cancelled(s.core, op);
    var gone := if verdict == TookAssigned then multiset{op} else multiset{};
    s.(core := core, leaving := (if verdict == TookWaiting then s.leaving + {op} else s.leaving),
       hooked := s.hooked + gone, deleted := s.deleted + gone, spared := s.spared + gone)
  }

  /** A step of a worker's thread; telling the scheduler erases the operation from its list. */
  function WorkerNext(w: Worker): Worker
    requires LoopEnabled(w.queue) && (w.queue.phase == Removing ==> w.queue.ops != [])
  {
    var next := w.(queue := LoopNext(w.queue));
    if w.queue.phase == Popped && w.queue.current.Some?
    then OperationReported(next, w.queue.current.value) else next
  }

  ghost function Stepped(s: State, w: Worker): State {
    var current := if w.queue.current.Some? then multiset{w.queue.current.value} else multiset{};
    s.(hooked := s.hooked + (if w.queue.phase == Performed then current else multiset{}),
       deleted := s.deleted + (if w.queue.phase == Reported then current else multiset{}),
       performed := s.performed + (if w.queue.phase == Performing then current else multiset{}),
       spared := s.spared + if w.queue.phase == Running && w.queue.canceled then current else multiset{})
  }

  ghost function HeadDrained(s: State): State
    requires s.detached != [] && s.detached[0].queue.ops != []
  {
    var w := s.detached[0];
    var op := w.queue.ops[0];
    s.(detached := s.detached[0 := OperationReported(w.(queue := Drained(w.queue)), op)],
       hooked := s.hooked + (if DrainCallsHook(w.queue) then multiset{op} else multiset{}),
       deleted := s.deleted + multiset{op},
       spared := s.spared + if DrainCallsHook(w.queue) then multiset{op} else multiset{})
  }

  ghost predicate IsRun(start: State, actions: seq<Action>, end: State)
    decreases |actions|
  {
    if actions == [] then end == start
    else Enabled(start, actions[0]) && IsRun(Next(start, actions[0]), actions[1..], end)
  }

  // ---------- the invariant ----------

  /** A worker holds at most one operation; its list and its queue agree, except while its
      thread has removed the operation and not yet reported it. */
  ghost predicate WorkerOk(w: Worker) {
    && Inv(w.queue) && w.queue.phase != Absent && |w.operations| <= 1
    && if w.queue.phase == Popped then w.queue.ops == [] && w.operations == [w.queue.current.value]
       else w.operations == w.queue.ops
  }

  ghost predicate WorkersOk(workers: seq<Worker>) {
    forall i :: 0 <= i < |workers| ==> WorkerOk(workers[i])
  }

  ghost predicate Apart(v: Worker, w: Worker) {
    forall a, b :: a in v.operations && b in w.operations ==> !Conflicts(a, b)
  }

  /** No two workers hold operations that conflict. */
  ghost predicate Exclusive(workers: seq<Worker>) {
    forall i, j :: 0 <= i < j < |workers| ==> Apart(workers[i], workers[j])
  }

  ghost predicate Serving(c: Core) {
    forall i :: 0 <= i < |c.workers| ==>
      !c.workers[i].queue.stopping && c.workers[i].queue.teardown == c.stopping
  }

  ghost predicate StagesOk(s: State) {
    && (s.stage == NotStopping <==> !s.core.stopping)
    && (s.core.stopping ==> s.core.running && !s.core.accepting)
    && (s.core.running && !s.core.stopping ==> s.core.accepting && s.core.workers != [] && s.dispatching)
    && (!s.core.running ==> !s.core.accepting && s.core.workers == [] && s.core.pending == []
                            && s.core.lanes == Lanes([], []))
    && (s.dispatching ==> s.core.running && (s.stage == NotStopping || s.stage == Joining))
    && (s.stage == Detaching || s.stage == TearingDown || s.stage == DeletingWaiting ==> s.core.pending == [])
    && (s.stage == TearingDown || s.stage == DeletingWaiting ==> s.core.workers == [])
    && (s.detached != [] ==> s.stage == TearingDown)
    && (s.disposing.Some? ==> s.stage == DeletingWaiting)
  }

  ghost predicate Shape(s: State) {
    && WorkersOk(s.core.workers) && WorkersOk(s.detached)
    && Exclusive(s.core.workers) && Exclusive(s.detached)
    && Serving(s.core) && StagesOk(s)
  }

  /** Waiting: in a lane, or held for its notification and not cancelled. */
  ghost predicate IsWaiting(c: Core, op: Operation) {
    || Waits(c.lanes, op)
    || exists i :: 0 <= i < |c.pending| && c.pending[i].op == op && !c.pending[i].canceled
  }

  ghost predicate NoEqualWaiting(c: Core) {
    forall a, b :: IsWaiting(c, a) && IsWaiting(c, b) && Equals(a, b) ==> a == b
  }

  // ---------- the ledgers, for one operation ----------

  ghost function PendingCount(s: seq<Pending>, x: Operation): nat {
    if s == [] then 0 else One(s[0].op == x) + PendingCount(s[1..], x)
  }

  ghost function WorkersOwn(s: seq<Worker>, x: Operation): nat {
    if s == [] then 0 else Owned(s[0].queue, x) + WorkersOwn(s[1..], x)
  }

  ghost function WorkersHooked(s: seq<Worker>, x: Operation): nat {
    if s == [] then 0 else One(HookCalled(s[0].queue, x)) + WorkersHooked(s[1..], x)
  }

  ghost function Places(s: State, x: Operation): nat {
    PendingCount(s.core.pending, x) + Content(s.core.lanes)[x]
    + WorkersOwn(s.core.workers, x) + WorkersOwn(s.detached, x)
    + One(x in s.leaving) + One(x in s.left)
    + One(s.disposing.Some? && s.disposing.value.op == x)
  }

  ghost function HookedPlaces(s: State, x: Operation): nat {
    WorkersHooked(s.core.workers, x) + WorkersHooked(s.detached, x)
    + One(x in s.left) + One(s.disposing == Some(Disposal(x, true)))
  }

  /** Each operation handed over is in exactly one place, or deleted once. */
  ghost predicate Conserved(s: State, x: Operation) {
    Places(s, x) + s.deleted[x] == One(x in s.handed)
  }

  ghost predicate HookedOnce(s: State, x: Operation) {
    s.hooked[x] == s.deleted[x] + HookedPlaces(s, x)
  }

  ghost predicate Ledgers(s: State, x: Operation) {
    Conserved(s, x) && HookedOnce(s, x)
  }

  ghost predicate StateInv(s: State) {
    Shape(s) && NoEqualWaiting(s.core) && forall x :: Ledgers(s, x)
  }
}
