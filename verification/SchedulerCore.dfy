/** What the scheduler keeps behind its monitor, and what each monitor section does to it. */
module SchedulerCore {
  import opened Operations
  import opened SchedulingPolicy
  import opened TransferQueue

  datatype Pending = Pending(op: Operation, priority: Priority, canceled: bool)

  /** A worker: the operations assigned to it and its own queue. */
  datatype Worker = Worker(operations: seq<Operation>, queue: Queue)

  datatype Core = Core(
    running: bool, stopping: bool, accepting: bool,
    lanes: Lanes, pending: seq<Pending>, workers: seq<Worker>)

  const IDLE := Core(false, false, false, Lanes([], []), [], [])

  // ---------- starting ----------

  /** The nearest number of workers that is allowed. */
  function WorkerCount(requested: int): (n: nat)
    ensures 1 <= n <= 8 && (1 < n ==> n <= requested) && (n < 8 ==> requested <= n)
  {
    if requested < 1 then 1 else if requested > 8 then 8 else requested
  }

  function Initialized(c: Core, workerCount: nat): Core {
    c.(running := true, stopping := false, accepting := true,
       workers := seq(workerCount, i => Worker([], FRESH_QUEUE)))
  }

  // ---------- adding ----------

  function EqualTo(op: Operation): Operation -> bool {
    waiting => Equals(op, waiting)
  }

  function PendingEqualTo(op: Operation): Pending -> bool {
    (p: Pending) => !p.canceled && Equals(op, p.op)
  }

  function PendingFor(op: Operation): Pending -> bool {
    (p: Pending) => p.op == op
  }

  datatype AddVerdict = Refused | Merged | Admitted

  /** First section of an add: refuse, merge with an equal waiting operation, or hold the
      operation until its notification is acknowledged. */
  function AddBegun(c: Core, op: Operation, priority: Priority): (Core, AddVerdict) {
    if !c.accepting then (c, Refused)
    else
      var duplicate := Found(c.lanes, EqualTo(op));
      var i := FirstMatching(c.pending, PendingEqualTo(op));
      if duplicate.Some? then
        (if priority == Urgent then c.(lanes := Promoted(c.lanes, duplicate.value)) else c, Merged)
      else if i < |c.pending| then
        (if priority == Urgent then c.(pending := c.pending[i := c.pending[i].(priority := Urgent)]) else c,
         Merged)
      else (c.(pending := c.pending + [Pending(op, priority, false)]), Admitted)
  }

  /** Second section: the operation enters its lane unless it was cancelled meanwhile. */
  function AddCommitted(c: Core, op: Operation): (Core, bool) {
    var i := FirstMatching(c.pending, PendingFor(op));
    if i == |c.pending| then (c, false)
    else
      var p := c.pending[i];
      var rest := c.(pending := c.pending[..i] + c.pending[i + 1..]);
      if p.canceled || !c.accepting then (rest, false)
      else (rest.(lanes := Pushed(c.lanes, op, p.priority)), true)
  }

  // ---------- cancelling ----------

  datatype CancelVerdict = MarkedPending | TookWaiting | TookAssigned | IsActive | Unknown

  predicate FrontsExist(workers: seq<Worker>) {
    forall i :: 0 <= i < |workers| ==> workers[i].queue.performing ==> workers[i].queue.ops != []
  }

  function CancelledIn(workers: seq<Worker>, op: Operation): (r: (seq<Worker>, CancelVerdict))
    requires FrontsExist(workers)
  {
    if workers == [] then ([], Unknown)
    else
      var w := workers[0];
      assert FrontsExist(workers[1..]);
      var (rest, verdict) := CancelledIn(workers[1..], op);
      if op !in w.operations then ([w] + rest, verdict)
      else
        match CancelResult(w.queue, op)
        case Canceled =>
          ([Worker(Erased(w.operations, op), AfterCancel(w.queue, op))] + workers[1..], TookAssigned)
        case StillActive => (workers, IsActive)
        case NotQueued => ([w] + rest, verdict)
  }

  function Cancelled(c: Core, op: Operation): (Core, CancelVerdict)
    requires FrontsExist(c.workers)
  {
    var i := FirstMatching(c.pending, PendingFor(op));
    if i < |c.pending| then
      (c.(pending := c.pending[i := c.pending[i].(canceled := true)]), MarkedPending)
    else if Waits(c.lanes, op) then (c.(lanes := Removed(c.lanes, op)), TookWaiting)
    else
      var (workers, verdict) := CancelledIn(c.workers, op);
      (c.(workers := workers), verdict)
  }

  // ---------- dispatching ----------

  predicate IsIdle(w: Worker) {
    w.operations == [] && w.queue.ops == []
  }

  function FirstIdle(workers: seq<Worker>): (i: nat)
    ensures i <= |workers|
    ensures i < |workers| ==> IsIdle(workers[i])
    ensures forall j :: 0 <= j < i ==> !IsIdle(workers[j])
  {
    FirstMatching(workers, IsIdle)
  }

  predicate ConflictsWithAny(op: Operation, taken: seq<Operation>) {
    exists j :: 0 <= j < |taken| && Conflicts(op, taken[j])
  }

  predicate WorkerConflict(workers: seq<Worker>, op: Operation) {
    exists i :: 0 <= i < |workers| && ConflictsWithAny(op, workers[i].operations)
  }

  function FreeOfConflict(workers: seq<Worker>): Operation -> bool {
    op => !WorkerConflict(workers, op)
  }

  /** The worker's list always takes the operation; its queue takes it only when it admits it. */
  function Assigned(w: Worker, op: Operation): Worker {
    Worker(w.operations + [op],
           if Admit(w.queue, op) == Accepted then Appended(w.queue, op) else w.queue)
  }

  datatype Dispatch = Dispatch(worker: nat, op: Operation)

  function Dispatched(c: Core): (r: (Core, Option<Dispatch>))
    ensures r.1.Some? ==> r.1.value.worker < |c.workers|
  {
    var i := FirstIdle(c.workers);
    if c.stopping || i == |c.workers| then (c, None)
    else
      var (op, rest) := TakenMatching(c.lanes, FreeOfConflict(c.workers));
      if op.None? then (c, None)
      else
        (c.(lanes := rest, workers := c.workers[i := Assigned(c.workers[i], op.value)]),
         Some(Dispatch(i, op.value)))
  }

  /** The owner's part of the terminal callback. */
  function OperationReported(w: Worker, op: Operation): Worker {
    w.(operations := Erased(w.operations, op))
  }

  // ---------- stopping ----------

  function AllTornDown(workers: seq<Worker>): (r: seq<Worker>)
    ensures |r| == |workers|
    ensures forall i :: 0 <= i < |r| ==> r[i] == workers[i].(queue := TornDown(workers[i].queue))
  {
    seq(|workers|, i requires 0 <= i < |workers| => workers[i].(queue := TornDown(workers[i].queue)))
  }

  function StopBegun(c: Core): Core {
    c.(accepting := false, stopping := true, workers := AllTornDown(c.workers))
  }

  function Stopped(c: Core): Core {
    c.(running := false, stopping := false, accepting := false)
  }
}
