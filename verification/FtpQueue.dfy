/** The queue object itself. Each method is one call, or one monitor section of the queue
    thread, and is proved against the step that the runs of the queue are made of. */
module FtpQueue {
  import opened Operations
  import opened TransferQueue

  class FTPQueue {
    var queue: seq<Operation>
    var activeOp: Option<Operation>
    var performing: bool
    var stopping: bool
    var teardown: bool
    var phase: Phase
    var current: Option<Operation>
    var canceled: bool

    constructor ()
      ensures View() == FRESH_QUEUE.(phase := Absent)
    {
      queue, activeOp, current := [], None, None;
      performing, stopping, teardown, canceled := false, false, false, false;
      phase := Absent;
    }

    function View(): Queue
      reads this
    {
      Queue(queue, activeOp, performing, stopping, teardown, phase, current, canceled)
    }

    /** Without an Add notification nothing separates the two sections of the add. */
    method AddQueueOp(op: Operation) returns (admission: Admission)
      modifies this
      ensures admission == Admit(old(View()), op)
      ensures View() == if admission == Accepted then Appended(old(View()), op) else old(View())
    {
      if teardown || stopping {
        return Rejected;
      }
      var i := 0;
      while i < |queue|
        invariant i <= |queue|
        invariant forall j :: 0 <= j < i ==> !Duplicates(View(), op, queue[j])
      {
        if Duplicates(View(), op, queue[i]) {
          return Dropped;
        }
        i := i + 1;
      }
      queue := queue + [op];
      admission := Accepted;
    }

    /** `canceled` lists the operations whose cancel hook and then terminal hook this call has
        called before deleting them: at most the one asked for. */
    method CancelQueueOp(op: Operation) returns (result: Cancellation, canceled: seq<Operation>)
      requires performing ==> queue != []
      modifies this
      ensures result == CancelResult(old(View()), op)
      ensures View() == AfterCancel(old(View()), op)
      ensures canceled == if result == Canceled then [op] else []
      ensures result == Canceled <==> op in old(queue) && !(old(performing) && op == old(queue)[0])
    {
      if performing {
        if op == queue[0] {
          return StillActive, [];
        }
      }
      var i := Scan(queue, x => x == op);
      if i == |queue| {
        return NotQueued, [];
      }
      canceled := [queue[i]];
      queue := queue[..i] + queue[i + 1..];
      result := Canceled;
    }

    /** `told` is the operation whose execution this call has cancelled and whose teardown hook
        it has called: the active one, at the first teardown only. */
    method BeginTeardown() returns (told: Option<Operation>)
      modifies this
      ensures View() == TornDown(old(View()))
      ensures told == if !old(teardown) && performing then activeOp else None
    {
      told := None;
      if !teardown {
        teardown := true;
        canceled := canceled || phase == Started || IsRunning(phase);
        if performing && activeOp.Some? {
          told := activeOp;
        }
      }
    }

    /** Returns what it cancelled and deleted, in order. */
    method ClearQueue(suppress: bool) returns (gone: seq<Operation>)
      requires performing ==> queue != []
      modifies this
      ensures View() == Cleared(old(View()), suppress)
      ensures gone == Discarded(Waiting(old(View())), suppress)
    {
      if suppress {
        var told := BeginTeardown();
      }
      ghost var flag := canceled;
      var active := if performing then [queue[0]] else [];
      var pending := if performing then queue[1..] else queue;
      var markers: seq<Operation>;
      markers, gone := Sift(pending, suppress);
      queue := active;
      while markers != []
        invariant queue + markers == active + Kept(pending, suppress)
        invariant unchanged(`activeOp) && unchanged(`current) && unchanged(`phase)
        invariant performing == old(performing) && stopping == old(stopping)
        invariant teardown == (old(teardown) || suppress) && canceled == flag
        decreases |markers|
      {
        queue := queue + [markers[0]];
        markers := markers[1..];
      }
      assert queue == queue + markers;
    }

    /** Empties the waiting part of the queue, setting completion markers aside. */
    static method Sift(waiting: seq<Operation>, suppress: bool)
      returns (markers: seq<Operation>, gone: seq<Operation>)
      ensures markers == Kept(waiting, suppress)
      ensures gone == Discarded(waiting, suppress)
    {
      var queue := waiting;
      markers, gone := [], [];
      while queue != []
        invariant markers + Kept(queue, suppress) == Kept(waiting, suppress)
        invariant gone + Discarded(queue, suppress) == Discarded(waiting, suppress)
        decreases |queue|
      {
        var pending := queue[0];
        queue := queue[1..];
        if IsCompletionMarker(pending) && !suppress {
          markers := markers + [pending];
        } else {
          gone := gone + [pending];
        }
      }
    }

    /** First section of the loop: leave when stopping, else make the front operation active. */
    method StartNext() returns (left: bool)
      requires phase == AtTop && LoopEnabled(View())
      modifies this
      ensures left == old(stopping)
      ensures View() == LoopNext(old(View()))
    {
      if stopping {
        phase := Leaving;
        return true;
      }
      current := Some(queue[0]);
      activeOp := current;
      performing := true;
      canceled := false;
      phase := Started;
      left := false;
    }

    /** The Start notification has been acknowledged. */
    method MarkRunning()
      requires phase == Started
      modifies this
      ensures View() == LoopNext(old(View()))
    {
      phase := Running;
    }

    /** An operation whose execution has been cancelled cannot be started any more. */
    method StartExecution() returns (started: bool)
      requires phase == Running
      modifies this
      ensures View() == LoopNext(old(View())) && started == !canceled
    {
      started := !canceled;
      phase := if started then Performing else Performed;
    }

    /** Performs the active operation, the front of the queue, and nothing else. */
    method PerformActive() returns (performed: Operation)
      requires phase == Performing && Inv(View())
      modifies this
      ensures View() == LoopNext(old(View()))
      ensures Some(performed) == activeOp && queue != [] && performed == queue[0]
    {
      performed := current.value;
      phase := Performed;
    }

    /** The End notification, and then the terminal hook of the active operation. */
    method EndActive() returns (hooked: Operation)
      requires phase == Performed && Inv(View())
      modifies this
      ensures View() == LoopNext(old(View()))
      ensures Some(hooked) == activeOp && queue != [] && hooked == queue[0]
    {
      hooked := current.value;
      phase := Ended;
    }

    /** A thread that is told to stop leaves the operation where it is. */
    method GoOn() returns (left: bool)
      requires phase == Ended
      modifies this
      ensures View() == LoopNext(old(View())) && left == stopping
    {
      left := stopping;
      phase := if left then Leaving else Removing;
    }

    /** Last section of one turn of the loop. */
    method RemoveActive()
      requires phase == Removing && Inv(View())
      modifies this
      ensures View() == LoopNext(old(View()))
      ensures Some(old(queue)[0]) == old(activeOp) && queue == old(queue)[1..]
    {
      activeOp := None;
      performing := false;
      queue := queue[1..];
      phase := Popped;
    }

    /** After the loop: the thread signals that it has stopped. */
    method LeaveLoop()
      requires phase == Leaving
      modifies this
      ensures View() == LoopNext(old(View()))
    {
      performing := false;
      phase := Exited;
    }

    /** Deletes what is left once the thread is gone; `hooked` lists the operations whose
        terminal hook this loop calls. */
    method DrainAfterStop() returns (hooked: seq<Operation>, deleted: seq<Operation>)
      requires phase == Exited && Inv(View()) && NoDuplicates(queue)
      modifies this
      ensures deleted == old(queue)
      ensures hooked == if old(queue) != [] && old(activeOp) == Some(old(queue)[0])
                        then old(queue)[1..] else old(queue)
      ensures View() == Deinitialized(old(View()).(ops := []))
    {
      hooked, deleted := DeleteAll();
      stopping, performing, teardown, activeOp, phase := false, false, false, None, Absent;
    }

    /** Of the operation that the thread has ended the hook is not called again. */
    method DeleteAll() returns (hooked: seq<Operation>, deleted: seq<Operation>)
      requires Inv(View()) && phase == Exited && NoDuplicates(queue)
      modifies this`queue
      ensures deleted == old(queue) && queue == []
      ensures hooked == if old(queue) != [] && activeOp == Some(old(queue)[0]) then old(queue)[1..] else old(queue)
    {
      hooked, deleted := [], [];
      ghost var all := queue;
      ghost var skip := One(queue != [] && activeOp == Some(queue[0]));
      while queue != []
        invariant |deleted| <= |all| && deleted == all[..|deleted|] && queue == all[|deleted|..]
        invariant hooked == if |deleted| < skip then [] else all[skip..|deleted|]
        decreases |queue|
      {
        var op := queue[0];
        ghost var k := |deleted|;
        ActiveIsFirst(all, activeOp, k);
        if activeOp != Some(op) {
          hooked := hooked + [op];
        }
        queue := queue[1..];
        deleted := deleted + [op];
        assert deleted == all[..k + 1];
      }
      assert all[..|all|] == all;
    }
  }

  ghost predicate NoDuplicates(s: seq<Operation>) {
    forall i, j :: 0 <= i < j < |s| ==> s[i] != s[j]
  }

  lemma ActiveIsFirst(s: seq<Operation>, active: Option<Operation>, k: nat)
    requires NoDuplicates(s) && k < |s|
    requires active.Some? ==> s[0] == active.value || active.value !in s
    ensures active == Some(s[k]) <==> k < One(active == Some(s[0]))
  {
  }

  /** A clear outside teardown keeps the completion markers in their order. */
  lemma {:induction false} MarkersKeepTheirOrder(s: seq<Operation>, i: nat, j: nat) returns (a: nat, b: nat)
    requires i < j < |s| && IsCompletionMarker(s[i]) && IsCompletionMarker(s[j])
    ensures a < b < |Kept(s, false)| && Kept(s, false)[a] == s[i] && Kept(s, false)[b] == s[j]
  {
    if i == 0 {
      b := MarkerIsKept(s[1..], j - 1);
      a, b := 0, b + 1;
    } else {
      a, b := MarkersKeepTheirOrder(s[1..], i - 1, j - 1);
      if IsCompletionMarker(s[0]) {
        a, b := a + 1, b + 1;
      }
    }
  }

  lemma {:induction false} MarkerIsKept(s: seq<Operation>, j: nat) returns (b: nat)
    requires j < |s| && IsCompletionMarker(s[j])
    ensures b < |Kept(s, false)| && Kept(s, false)[b] == s[j]
  {
    if j == 0 {
      b := 0;
    } else {
      b := MarkerIsKept(s[1..], j - 1);
      if IsCompletionMarker(s[0]) {
        b := b + 1;
      }
    }
  }
}
