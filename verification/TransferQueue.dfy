/** One transfer queue: the fields behind its monitor, its client calls and its thread.
    Each function below is one monitor section, or one unlocked stretch of the thread. */
module TransferQueue {
  import opened Operations

  /** Where the queue thread is. `Absent` means no thread exists; `Leaving` that it has
      broken out of its loop; `Exited` that it has also signalled the stop condition. In
      `Started` the Start notification is out; in `Running` the operation is marked as running
      but its execution has not been started; in `Performing` the thread is inside Perform. */
  datatype Phase =
    | Absent | AtTop | Started | Running | Performing | Performed | Ended | Removing | Popped | Reported
    | Leaving | Exited

  /** `current` is the thread's own pointer to the operation it works on, `canceled` tells that
      the execution of that operation has been cancelled since it was prepared. */
  datatype Queue = Queue(
    ops: seq<Operation>, active: Option<Operation>,
    performing: bool, stopping: bool, teardown: bool,
    phase: Phase, current: Option<Operation>, canceled: bool)

  const FRESH_QUEUE := Queue([], None, false, false, false, AtTop, None, false)

  predicate Handles(p: Phase) {
    p == Started || p == Running || p == Performing || p == Performed || p == Ended || p == Removing
  }

  predicate IsFront(q: Queue, op: Option<Operation>) {
    op.Some? && q.ops != [] && q.ops[0] == op.value
  }

  /** While the thread performs, the active operation is the front of the queue. */
  ghost predicate Inv(q: Queue) {
    if Handles(q.phase) then q.active == q.current && q.performing && IsFront(q, q.active)
    else if q.phase == Leaving then
      q.stopping && q.performing == q.active.Some? && (q.active.Some? ==> IsFront(q, q.active))
    else if q.phase == Exited then
      && q.stopping && !q.performing
      && (q.active.Some? ==> IsFront(q, q.active) || q.active.value !in q.ops)
    else
      && q.active.None? && !q.performing
      && (q.phase == Absent ==> !q.stopping)
      && (q.phase == Popped || q.phase == Reported ==> q.current.Some?)
  }

  // ---------- ownership, counted for one operation ----------

  function One(b: bool): nat {
    if b then 1 else 0
  }

  /** The thread holds `x` after taking it out of the list and before deleting it. */
  predicate HeldByThread(q: Queue, x: Operation) {
    (q.phase == Popped || q.phase == Reported) && q.current == Some(x)
  }

  /** How many times the queue or its thread will still delete `x`. */
  ghost function Owned(q: Queue, x: Operation): nat {
    multiset(q.ops)[x] + One(HeldByThread(q, x))
  }

  /** `x` is owned and its terminal hook has already been called. */
  ghost predicate HookCalled(q: Queue, x: Operation) {
    || ((q.phase == Ended || q.phase == Removing) && q.current == Some(x))
    || HeldByThread(q, x)
    || ((q.phase == Leaving || q.phase == Exited) && q.active == Some(x) && x in q.ops)
  }

  /** `x` is owned and the thread has done with its body. */
  ghost predicate PassedBody(q: Queue, x: Operation) {
    (q.phase == Performed && q.current == Some(x)) || HookCalled(q, x)
  }

  /** `x` is owned and the thread has started it. */
  ghost predicate InLoop(q: Queue, x: Operation) {
    (Handles(q.phase) && q.current == Some(x)) || HookCalled(q, x)
  }

  // ---------- client calls ----------

  datatype Admission = Rejected | Dropped | Accepted

  predicate IsRunning(p: Phase) {
    p == Running || p == Performing
  }

  predicate Duplicates(q: Queue, op: Operation, queued: Operation) {
    Equals(op, queued) && !(ComparesRunning(op.queueType) && IsRunning(q.phase) && q.current == Some(queued))
  }

  function Admit(q: Queue, op: Operation): Admission {
    if q.teardown || q.stopping then Rejected
    else if exists i :: 0 <= i < |q.ops| && Duplicates(q, op, q.ops[i]) then Dropped
    else Accepted
  }

  function Appended(q: Queue, op: Operation): Queue {
    q.(ops := q.ops + [op])
  }

  datatype Cancellation = Canceled | StillActive | NotQueued

  function CancelResult(q: Queue, op: Operation): Cancellation
    requires q.performing ==> q.ops != []
  {
    if q.performing && op == q.ops[0] then StillActive
    else if op in q.ops then Canceled
    else NotQueued
  }

  function AfterCancel(q: Queue, op: Operation): Queue
    requires q.performing ==> q.ops != []
  {
    if CancelResult(q, op) == Canceled then q.(ops := Erased(q.ops, op)) else q
  }

  /** The first teardown also cancels the execution of the active operation, unless that has
      finished. */
  function TornDown(q: Queue): Queue {
    if q.teardown then q
    else q.(teardown := true, canceled := q.canceled || q.phase == Started || IsRunning(q.phase))
  }

  function Kept(s: seq<Operation>, suppress: bool): seq<Operation> {
    if s == [] then []
    else if IsCompletionMarker(s[0]) && !suppress then [s[0]] + Kept(s[1..], suppress)
    else Kept(s[1..], suppress)
  }

  function Discarded(s: seq<Operation>, suppress: bool): seq<Operation> {
    if s == [] then []
    else if IsCompletionMarker(s[0]) && !suppress then Discarded(s[1..], suppress)
    else [s[0]] + Discarded(s[1..], suppress)
  }

  function Waiting(q: Queue): seq<Operation>
    requires q.performing ==> q.ops != []
  {
    if q.performing then q.ops[1..] else q.ops
  }

  function Cleared(q: Queue, suppress: bool): Queue
    requires q.performing ==> q.ops != []
  {
    (if suppress then TornDown(q) else q).(
       ops := (if q.performing then [q.ops[0]] else []) + Kept(Waiting(q), suppress))
  }

  // ---------- the queue thread ----------

  predicate LoopEnabled(q: Queue) {
    q.phase != Absent && q.phase != Exited && (q.phase == AtTop ==> q.stopping || q.ops != [])
  }

  /** The next step of the thread. An operation whose execution cannot be started is not
      performed; one that is has been performed on leaving `Performing`. The terminal hook is
      called on leaving `Performed`, the owner is told on leaving `Popped`, and the operation is
      deleted on leaving `Reported`. */
  function LoopNext(q: Queue): Queue
    requires LoopEnabled(q)
    requires q.phase == Removing ==> q.ops != []
  {
    match q.phase
    case AtTop =>
      if q.stopping then q.(phase := Leaving)
      else
        var front := Some(q.ops[0]);
        q.(active := front, current := front, performing := true, canceled := false, phase := Started)
    case Started => q.(phase := Running)
    case Running => q.(phase := if q.canceled then Performed else Performing)
    case Performing => q.(phase := Performed)
    case Performed => q.(phase := Ended)
    case Ended => if q.stopping then q.(phase := Leaving) else q.(phase := Removing)
    case Removing => q.(active := None, performing := false, ops := q.ops[1..], phase := Popped)
    case Popped => q.(phase := Reported)
    case Reported => q.(phase := AtTop)
    case Leaving => q.(performing := false, phase := Exited)
  }

  // ---------- stopping ----------

  function StopRequested(q: Queue): Queue {
    q.(stopping := true)
  }

  /** After the thread has gone, an operation it ended is deleted without a second hook. */
  predicate DrainCallsHook(q: Queue)
    requires q.ops != []
  {
    q.active != Some(q.ops[0])
  }

  function Drained(q: Queue): Queue
    requires q.ops != []
  {
    q.(ops := q.ops[1..])
  }

  function Deinitialized(q: Queue): Queue {
    q.(active := None, performing := false, stopping := false, teardown := false, phase := Absent)
  }

  // ---------- what each call keeps ----------

  lemma ClientCallsKeepInv(q: Queue, op: Operation, suppress: bool)
    requires Inv(q) && q.phase != Exited
    ensures Inv(Appended(q, op))
    ensures Inv(Cleared(q, suppress))
    ensures Inv(TornDown(q))
    ensures q.phase != Absent ==> Inv(StopRequested(q))
    ensures Inv(AfterCancel(q, op))
  {
    if q.performing && op in q.ops && op != q.ops[0] {
      ErasedKeepsFront(q.ops, op);
    }
  }

  lemma ErasedKeepsFront(s: seq<Operation>, op: Operation)
    requires s != [] && s[0] != op
    ensures Erased(s, op) != [] && Erased(s, op)[0] == s[0]
  {
  }

  lemma LoopKeepsInv(q: Queue)
    requires Inv(q) && LoopEnabled(q)
    ensures Inv(LoopNext(q))
  {
    match q.phase
    case AtTop =>
    case Started =>
    case Running =>
    case Performing =>
    case Performed =>
    case Ended =>
    case Removing =>
    case Popped =>
    case Reported =>
    case Leaving =>
  }

  lemma FrontCount(s: seq<Operation>, x: Operation)
    requires s != []
    ensures multiset(s)[x] == One(s[0] == x) + multiset(s[1..])[x]
    ensures x in s <==> multiset(s)[x] > 0
  {
    assert s == [s[0]] + s[1..];
  }

  /** A step of the thread moves operations, and gives up only the one it deletes. */
  lemma LoopLedger(q: Queue, x: Operation)
    requires Inv(q) && LoopEnabled(q)
    ensures var gone := One(q.phase == Reported && q.current == Some(x));
      var hook := One(q.phase == Performed && q.current == Some(x));
      && Owned(LoopNext(q), x) + gone == Owned(q, x)
      && One(HookCalled(LoopNext(q), x)) + gone == One(HookCalled(q, x)) + hook
  {
    if q.phase == Removing {
      RemovingLedger(q, x);
    } else {
      OtherStepsLedger(q, x);
    }
  }

  lemma RemovingLedger(q: Queue, x: Operation)
    requires Inv(q) && LoopEnabled(q) && q.phase == Removing
    ensures Owned(LoopNext(q), x) == Owned(q, x) && HookCalled(LoopNext(q), x) == HookCalled(q, x)
  {
    FrontCount(q.ops, x);
  }

  lemma OtherStepsLedger(q: Queue, x: Operation)
    requires Inv(q) && LoopEnabled(q) && q.phase != Removing
    ensures var gone := One(q.phase == Reported && q.current == Some(x));
      var hook := One(q.phase == Performed && q.current == Some(x));
      && Owned(LoopNext(q), x) + gone == Owned(q, x)
      && One(HookCalled(LoopNext(q), x)) + gone == One(HookCalled(q, x)) + hook
  {
    assert LoopNext(q).ops == q.ops;
  }

  /** What a step of the thread does for the body of an operation. */
  lemma LoopBody(q: Queue, x: Operation)
    requires Inv(q) && LoopEnabled(q)
    ensures var gone := One(q.phase == Reported && q.current == Some(x));
      var performed := One(q.phase == Performing && q.current == Some(x));
      var spared := One(q.phase == Running && q.canceled && q.current == Some(x));
      One(PassedBody(LoopNext(q), x)) + gone == One(PassedBody(q, x)) + performed + spared
  {
    LoopLedger(q, x);
    match q.phase
    case AtTop =>
    case Started =>
    case Running =>
    case Performing =>
    case Performed =>
    case Ended =>
    case Removing =>
    case Popped =>
    case Reported =>
    case Leaving =>
  }

  lemma CancelLedger(q: Queue, op: Operation, x: Operation)
    requires Inv(q) && q.phase != Exited && CancelResult(q, op) == Canceled
    ensures Owned(AfterCancel(q, op), x) + One(x == op) == Owned(q, x)
    ensures HookCalled(AfterCancel(q, op), x) == HookCalled(q, x)
    ensures InLoop(AfterCancel(q, op), x) == InLoop(q, x)
  {
    CancelCount(q, op, x);
    if q.performing {
      ErasedKeepsFront(q.ops, op);
    }
  }

  lemma CancelCount(q: Queue, op: Operation, x: Operation)
    requires Inv(q) && CancelResult(q, op) == Canceled
    ensures multiset(AfterCancel(q, op).ops)[x] + One(x == op) == multiset(q.ops)[x]
  {
  }

  lemma {:induction false} KeptAndDiscarded(s: seq<Operation>, suppress: bool, x: Operation)
    ensures multiset(Kept(s, suppress))[x] + multiset(Discarded(s, suppress))[x] == multiset(s)[x]
    ensures x in Kept(s, suppress) ==> IsCompletionMarker(x) && !suppress
    ensures x in Discarded(s, suppress) ==> suppress || !IsCompletionMarker(x)
  {
    if s != [] {
      KeptAndDiscarded(s[1..], suppress, x);
      FrontCount(s, x);
    }
  }

  lemma ClearedOps(q: Queue, suppress: bool, x: Operation)
    requires q.performing ==> q.ops != []
    ensures multiset(Cleared(q, suppress).ops)[x] + multiset(Discarded(Waiting(q), suppress))[x]
         == multiset(q.ops)[x]
    ensures q.performing ==> IsFront(Cleared(q, suppress), Some(q.ops[0]))
  {
    KeptAndDiscarded(Waiting(q), suppress, x);
    var kept := Kept(Waiting(q), suppress);
    if q.performing {
      FrontCount(q.ops, x);
      var ops := [q.ops[0]] + kept;
      FrontCount(ops, x);
      assert ops[1..] == kept;
    } else {
      assert [] + kept == kept;
    }
  }

  lemma ClearLedger(q: Queue, suppress: bool, x: Operation)
    requires Inv(q) && q.phase != Exited
    ensures Owned(Cleared(q, suppress), x) + multiset(Discarded(Waiting(q), suppress))[x] == Owned(q, x)
    ensures HookCalled(Cleared(q, suppress), x) == HookCalled(q, x)
    ensures InLoop(Cleared(q, suppress), x) == InLoop(q, x)
  {
    ClearedOps(q, suppress, x);
  }

  lemma DrainLedger(q: Queue, x: Operation)
    requires Inv(q) && q.phase == Exited && q.ops != [] && multiset(q.ops)[q.ops[0]] <= 1
    ensures Inv(Drained(q))
    ensures Owned(Drained(q), x) + One(x == q.ops[0]) == Owned(q, x)
    ensures One(HookCalled(Drained(q), x)) + One(x == q.ops[0])
         == One(HookCalled(q, x)) + One(x == q.ops[0] && DrainCallsHook(q))
  {
    FrontCount(q.ops, x);
    FrontCount(q.ops, q.ops[0]);
    if q.ops[1..] != [] {
      FrontCount(q.ops[1..], q.ops[0]);
    }
  }
}
