/** The scheduler object: one method for each section it runs under its monitor, with the
    scans the program makes, proved against the sections its runs are made of. */
module UploadScheduler {
  import opened Operations
  import opened SchedulingPolicy
  import opened TransferQueue
  import opened SchedulerCore

  /** The result of a cancel of which the workers before index `i` have not been part. */
  ghost function CancelledAt(workers: seq<Worker>, i: nat, op: Operation): (seq<Worker>, CancelVerdict)
    requires i <= |workers| && FrontsExist(workers)
  {
    assert FrontsExist(workers[i..]);
    var (rest, verdict) := CancelledIn(workers[i..], op);
    (workers[..i] + rest, verdict)
  }

  lemma CancelledAtStart(workers: seq<Worker>, op: Operation)
    requires FrontsExist(workers)
    ensures CancelledAt(workers, 0, op) == CancelledIn(workers, op)
  {
    assert workers[0..] == workers;
    assert [] + CancelledIn(workers, op).0 == CancelledIn(workers, op).0;
  }

  lemma CancelledStep(workers: seq<Worker>, i: nat, op: Operation)
    requires i < |workers| && FrontsExist(workers)
    ensures var w := workers[i];
      CancelledAt(workers, i, op) ==
        if op in w.operations && CancelResult(w.queue, op) == Canceled then
          (workers[i := Worker(Erased(w.operations, op), AfterCancel(w.queue, op))], TookAssigned)
        else if op in w.operations && CancelResult(w.queue, op) == StillActive then (workers, IsActive)
        else CancelledAt(workers, i + 1, op)
  {
    var w := workers[i];
    var v := Worker(Erased(w.operations, op), AfterCancel(w.queue, op));
    Around(workers, i, v, CancelledAt(workers, i + 1, op).0[i + 1..]);
  }

  lemma Around(workers: seq<Worker>, i: nat, v: Worker, t: seq<Worker>)
    requires i < |workers|
    ensures workers[i..][0] == workers[i] && workers[i..][1..] == workers[i + 1..]
    ensures workers[..i] + workers[i..] == workers
    ensures workers[..i] + ([v] + workers[i + 1..]) == workers[i := v]
    ensures workers[..i] + ([workers[i]] + t) == workers[..i + 1] + t
    ensures (workers[..i + 1] + t)[i + 1..] == t
  {
  }

  class ConcurrentUploadScheduler {
    const workerCount: nat
    const policy: UploadSchedulingPolicy
    var pendingAdds: seq<Pending>
    var workers: seq<Worker>
    var running: bool
    var stopping: bool
    var accepting: bool

    constructor (requested: int)
      ensures View() == IDLE && workerCount == WorkerCount(requested)
      ensures fresh(policy)
    {
      workerCount := WorkerCount(requested);
      policy := new UploadSchedulingPolicy();
      pendingAdds, workers := [], [];
      running, stopping, accepting := false, false, false;
    }

    function View(): Core
      reads this, policy
    {
      Core(running, stopping, accepting, policy.View(), pendingAdds, workers)
    }

    /** `cloned` says whether every worker and the dispatch thread could be created. */
    method Initialize(cloned: bool) returns (ok: bool)
      modifies this
      ensures ok == ((old(running) && !old(stopping)) || (!old(running) && !old(stopping) && cloned))
      ensures View() == if !old(running) && !old(stopping) && cloned
                        then Initialized(old(View()), workerCount) else old(View())
    {
      if running || stopping {
        return running && !stopping;
      }
      if !cloned {
        return false;
      }
      var made: seq<Worker> := [];
      for i := 0 to workerCount
        invariant made == seq(i, k => Worker([], FRESH_QUEUE))
      {
        made := made + [Worker([], FRESH_QUEUE)];
      }
      workers := made;
      stopping := false;
      accepting := true;
      running := true;
      ok := true;
    }

    method AddSection(op: Operation, priority: Priority) returns (verdict: AddVerdict)
      modifies this, policy
      ensures (View(), verdict) == AddBegun(old(View()), op, priority)
    {
      if !accepting {
        return Refused;
      }
      var duplicate := policy.FindWaiting(EqualTo(op));
      var i := Scan(pendingAdds, PendingEqualTo(op));
      if duplicate.Some? {
        if priority == Urgent {
          var _ := policy.PromoteWaiting(duplicate.value);
        }
        return Merged;
      }
      if i < |pendingAdds| {
        if priority == Urgent {
          pendingAdds := pendingAdds[i := pendingAdds[i].(priority := Urgent)];
        }
        return Merged;
      }
      pendingAdds := pendingAdds + [Pending(op, priority, false)];
      verdict := Admitted;
    }

    method CommitSection(op: Operation) returns (admitted: bool)
      modifies this, policy
      ensures (View(), admitted) == AddCommitted(old(View()), op)
    {
      var i := Scan(pendingAdds, PendingFor(op));
      if i == |pendingAdds| {
        return false;
      }
      var p := pendingAdds[i];
      var canceled := p.canceled || !accepting;
      pendingAdds := pendingAdds[..i] + pendingAdds[i + 1..];
      if !canceled {
        policy.Push(op, p.priority);
      }
      admitted := !canceled;
    }

    method CancelSection(op: Operation) returns (verdict: CancelVerdict)
      requires FrontsExist(workers)
      modifies this, policy
      ensures (View(), verdict) == Cancelled(old(View()), op)
    {
      var p := Scan(pendingAdds, PendingFor(op));
      if p < |pendingAdds| {
        pendingAdds := pendingAdds[p := pendingAdds[p].(canceled := true)];
        return MarkedPending;
      }
      verdict := CancelUnheld(op);
    }

    /** The part of a cancel that looks for the operation in the lanes and with the workers. */
    method CancelUnheld(op: Operation) returns (verdict: CancelVerdict)
      requires FrontsExist(workers)
      modifies this`workers, policy
      ensures Waits(old(View()).lanes, op) ==>
        verdict == TookWaiting && View() == old(View()).(lanes := Removed(old(View()).lanes, op))
      ensures !Waits(old(View()).lanes, op) ==>
        verdict == CancelledIn(old(workers), op).1 && View() == old(View()).(workers := CancelledIn(old(workers), op).0)
    {
      var waiting := policy.Remove(op);
      if waiting {
        return TookWaiting;
      }
      var next;
      next, verdict := CancelAssigned(workers, op);
      workers := next;
    }

    static method CancelAssigned(workers: seq<Worker>, op: Operation)
      returns (next: seq<Worker>, verdict: CancelVerdict)
      requires FrontsExist(workers)
      ensures (next, verdict) == CancelledIn(workers, op)
    {
      var i := 0;
      CancelledAtStart(workers, op);
      while i < |workers|
        invariant i <= |workers|
        invariant CancelledIn(workers, op) == CancelledAt(workers, i, op)
      {
        CancelledStep(workers, i, op);
        var w := workers[i];
        if op in w.operations {
          var result := CancelResult(w.queue, op);
          if result == Canceled {
            next := workers[i := Worker(Erased(w.operations, op), AfterCancel(w.queue, op))];
            return next, TookAssigned;
          }
          if result == StillActive {
            return workers, IsActive;
          }
        }
        i := i + 1;
      }
      assert workers[..i] + [] == workers;
      next, verdict := workers, Unknown;
    }

    method DispatchSection() returns (dispatch: Option<Dispatch>)
      modifies this, policy
      ensures (View(), dispatch) == Dispatched(old(View()))
    {
      if stopping {
        return None;
      }
      var i := FindIdleWorker();
      if i == |workers| {
        return None;
      }
      var op := policy.TakeNextMatching(FreeOfConflict(workers));
      if op.None? {
        return None;
      }
      workers := workers[i := Assigned(workers[i], op.value)];
      dispatch := Some(Dispatch(i, op.value));
    }

    method FindIdleWorker() returns (i: nat)
      ensures i == FirstIdle(workers)
    {
      i := Scan(workers, IsIdle);
    }

    method TerminalSection(i: nat, op: Operation)
      requires i < |workers|
      modifies this
      ensures View() == old(View()).(workers := old(workers)[i := OperationReported(old(workers)[i], op)])
    {
      var w := workers[i];
      var at := Scan(w.operations, x => x == op);
      if at < |w.operations| {
        w := w.(operations := w.operations[..at] + w.operations[at + 1..]);
      }
      workers := workers[i := w];
    }

    method StopSection() returns (begun: bool)
      modifies this
      ensures begun == (old(running) && !old(stopping))
      ensures View() == if begun then StopBegun(old(View())) else old(View())
    {
      if !running || stopping {
        return false;
      }
      accepting := false;
      stopping := true;
      ghost var all := workers;
      for i := 0 to |workers|
        invariant |workers| == |all|
        invariant forall k :: 0 <= k < |all| ==>
          workers[k] == if k < i then all[k].(queue := TornDown(all[k].queue)) else all[k]
        invariant running == old(running) && stopping && !accepting
        invariant pendingAdds == old(pendingAdds)
      {
        workers := workers[i := workers[i].(queue := TornDown(workers[i].queue))];
      }
      assert workers == AllTornDown(all);
      begun := true;
    }

    method DetachSection() returns (detached: seq<Worker>)
      modifies this
      ensures detached == old(workers) && View() == old(View()).(workers := [])
    {
      detached, workers := workers, [];
    }

    method TakeForDeletion() returns (op: Option<Operation>)
      modifies policy
      ensures op == TakenNext(old(View()).lanes).0
      ensures View() == old(View()).(lanes := TakenNext(old(View()).lanes).1)
    {
      op := policy.TakeNext();
    }

    method FinishSection()
      modifies this
      ensures View() == Stopped(old(View()))
    {
      running, stopping, accepting := false, false, false;
    }
  }
}
