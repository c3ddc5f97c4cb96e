/** What a cancel answers, and that a cancel that takes effect is final. */
module SchedulerCancels {
  import opened Operations
  import opened SchedulingPolicy
  import opened TransferQueue
  import opened SchedulerCore
  import opened SchedulerRuns
  import opened SchedulerLedger
  import opened SchedulerSafety
  import opened SchedulerPerformance

  // ---------- where an operation can be ----------

  ghost predicate IsPending(c: Core, op: Operation) {
    exists i :: 0 <= i < |c.pending| && c.pending[i].op == op
  }

  /** The worker performs the operation: it is the front of its queue, and active. */
  predicate PerformsIt(w: Worker, op: Operation) {
    w.queue.performing && w.queue.ops != [] && w.queue.ops[0] == op
  }

  /** The worker's queue holds the operation and does not perform it. */
  predicate KeepsIt(w: Worker, op: Operation) {
    op in w.queue.ops && !PerformsIt(w, op)
  }

  ghost predicate SomePerforms(workers: seq<Worker>, op: Operation) {
    exists i :: 0 <= i < |workers| && PerformsIt(workers[i], op)
  }

  ghost predicate SomeKeeps(workers: seq<Worker>, op: Operation) {
    exists i :: 0 <= i < |workers| && KeepsIt(workers[i], op)
  }

  ghost predicate NoneHolds(workers: seq<Worker>, op: Operation) {
    forall i :: 0 <= i < |workers| ==> op !in workers[i].operations && op !in workers[i].queue.ops
  }

  lemma {:induction false} PendingIsCounted(s: seq<Pending>, i: nat, x: Operation)
    requires i < |s| && s[i].op == x
    ensures PendingCount(s, x) > 0
  {
    if i > 0 {
      PendingIsCounted(s[1..], i - 1, x);
    }
  }

  lemma {:induction false} OwnedIsCounted(s: seq<Worker>, i: nat, x: Operation)
    requires i < |s|
    ensures Owned(s[i].queue, x) <= WorkersOwn(s, x)
  {
    if i > 0 {
      OwnedIsCounted(s[1..], i - 1, x);
    }
  }

  lemma QueuedIsOwned(q: Queue, x: Operation)
    ensures x in q.ops ==> Owned(q, x) > 0
  {
    assert x in q.ops ==> multiset(q.ops)[x] > 0;
  }

  lemma NotOwnedNotHeld(s: seq<Worker>, x: Operation)
    requires WorkersOk(s) && WorkersOwn(s, x) == 0
    ensures NoneHolds(s, x)
  {
    forall i | 0 <= i < |s| ensures x !in s[i].operations && x !in s[i].queue.ops {
      OwnedIsCounted(s, i, x);
      QueuedIsOwned(s[i].queue, x);
      assert WorkerOk(s[i]);
    }
  }

  // ---------- what a cancel answers ----------

  function Answer(s: State, op: Operation): CancelVerdict
    requires FrontsExist(s.core.workers)
  {
    Cancelled(s.core, op).1
  }

  lemma FirstHolds(w: Worker, rest: seq<Worker>, op: Operation)
    ensures SomePerforms([w] + rest, op) <==> PerformsIt(w, op) || SomePerforms(rest, op)
    ensures SomeKeeps([w] + rest, op) <==> KeepsIt(w, op) || SomeKeeps(rest, op)
  {
    var s := [w] + rest;
    assert forall i :: 0 <= i < |rest| ==> rest[i] == s[i + 1];
    assert s[0] == w;
  }

  /** A second holder would be a second place. */
  lemma HeldElsewhere(w: Worker, rest: seq<Worker>, op: Operation)
    requires WorkersOwn([w] + rest, op) <= 1 && op in w.queue.ops
    ensures !SomePerforms(rest, op) && !SomeKeeps(rest, op)
  {
    FirstOwns(w, rest, op);
    QueuedIsOwned(w.queue, op);
    forall i | 0 <= i < |rest| ensures op !in rest[i].queue.ops {
      OwnedIsCounted(rest, i, op);
      QueuedIsOwned(rest[i].queue, op);
    }
  }

  ghost predicate Tells(verdict: CancelVerdict, s: seq<Worker>, op: Operation) {
    && (verdict == IsActive <==> SomePerforms(s, op))
    && (verdict == TookAssigned <==> SomeKeeps(s, op))
    && (verdict == Unknown <==> !SomePerforms(s, op) && !SomeKeeps(s, op))
  }

  /** What one worker answers. */
  lemma AnswerOfWorker(w: Worker, op: Operation)
    requires WorkerOk(w) && (w.queue.performing ==> w.queue.ops != [])
    ensures op in w.operations && CancelResult(w.queue, op) == Canceled <==> KeepsIt(w, op)
    ensures op in w.operations && CancelResult(w.queue, op) == StillActive <==> PerformsIt(w, op)
  {
  }

  lemma AnswerOfFirst(w: Worker, rest: seq<Worker>, op: Operation)
    requires WorkerOk(w) && FrontsExist([w] + rest) && FrontsExist(rest)
    requires WorkersOwn([w] + rest, op) <= 1 && Tells(CancelledIn(rest, op).1, rest, op)
    ensures Tells(CancelledIn([w] + rest, op).1, [w] + rest, op)
  {
    assert ([w] + rest)[0] == w;
    CancelledInOne(w, rest, op);
    FirstHolds(w, rest, op);
    AnswerOfWorker(w, op);
    if op in w.queue.ops {
      HeldElsewhere(w, rest, op);
    }
  }

  lemma {:induction false} AnswerOfWorkers(s: seq<Worker>, op: Operation)
    requires WorkersOk(s) && FrontsExist(s) && WorkersOwn(s, op) <= 1
    ensures Tells(CancelledIn(s, op).1, s, op)
  {
    if s != [] {
      var w, rest := s[0], s[1..];
      assert s == [w] + rest && WorkerOk(w);
      assert forall i :: 0 <= i < |rest| ==> rest[i] == s[i + 1];
      FirstOwns(w, rest, op);
      AnswerOfWorkers(rest, op);
      AnswerOfFirst(w, rest, op);
    }
  }

  /** The answer tells where the operation was: held for its notification, waiting in a lane,
      with a worker that performs it or with one that does not, or in none of these places. */
  lemma AnswerTellsWhere(actions: seq<Action>, s: State, op: Operation)
    requires IsRun(INITIAL, actions, s) && Enabled(s, Cancel(op))
    ensures Answer(s, op) == MarkedPending <==> IsPending(s.core, op)
    ensures Answer(s, op) == TookWaiting <==> Waits(s.core.lanes, op)
    ensures Answer(s, op) == IsActive <==> SomePerforms(s.core.workers, op)
    ensures Answer(s, op) == TookAssigned <==> SomeKeeps(s.core.workers, op)
    ensures Answer(s, op) == Unknown <==>
      !IsPending(s.core, op) && !Waits(s.core.lanes, op)
      && forall i :: 0 <= i < |s.core.workers| ==> op !in s.core.workers[i].queue.ops
  {
    ReachableInv(actions, s);
    var c := s.core;
    assert Ledgers(s, op);
    AnswerOfWorkers(c.workers, op);
    OnePlace(s, op);
    var i := FirstMatching(c.pending, PendingFor(op));
    assert IsPending(c, op) <==> i < |c.pending| by {
      if k :| 0 <= k < |c.pending| && c.pending[k].op == op {
        assert PendingFor(op)(c.pending[k]);
      }
    }
  }

  /** The places exclude each other. */
  lemma OnePlace(s: State, op: Operation)
    requires Shape(s) && Conserved(s, op)
    ensures IsPending(s.core, op) ==> !Waits(s.core.lanes, op)
    ensures IsPending(s.core, op) || Waits(s.core.lanes, op) ==>
      NoneHolds(s.core.workers, op) && !SomePerforms(s.core.workers, op) && !SomeKeeps(s.core.workers, op)
  {
    WaitsIsContent(s.core.lanes, op);
    if i :| 0 <= i < |s.core.pending| && s.core.pending[i].op == op {
      PendingIsCounted(s.core.pending, i, op);
    }
    if IsPending(s.core, op) || Waits(s.core.lanes, op) {
      NotOwnedNotHeld(s.core.workers, op);
    }
  }

  // ---------- a cancel that takes effect is final ----------

  /** Out of every list: with the call that took it, or deleted. */
  ghost predicate Out(s: State, x: Operation) {
    One(x in s.leaving) + One(x in s.left) + s.deleted[x] >= 1
  }

  /** Held for its notification, and marked. */
  ghost predicate Doomed(s: State, x: Operation) {
    IsPending(s.core, x) && IsMarked(s.core.pending, x)
  }

  ghost predicate IsMarked(p: seq<Pending>, x: Operation) {
    forall i :: 0 <= i < |p| && p[i].op == x ==> p[i].canceled
  }

  ghost predicate Final(s: State, x: Operation) {
    x in s.handed && s.performed[x] == 0 && (Out(s, x) || Doomed(s, x))
  }

  lemma FinalIsNowhere(s: State, x: Operation)
    requires StateInv(s) && Final(s, x)
    ensures !Waits(s.core.lanes, x) && NoneHolds(s.core.workers, x) && NoneHolds(s.detached, x)
    ensures WorkersOwn(s.core.workers, x) == 0 && WorkersOwn(s.detached, x) == 0
  {
    assert Ledgers(s, x);
    WaitsIsContent(s.core.lanes, x);
    if Doomed(s, x) {
      var i :| 0 <= i < |s.core.pending| && s.core.pending[i].op == x;
      PendingIsCounted(s.core.pending, i, x);
    }
    NotOwnedNotHeld(s.core.workers, x);
    NotOwnedNotHeld(s.detached, x);
  }

  /** What has gone out of the lists goes on to be hooked and deleted. */
  lemma OutStays(s: State, a: Action, x: Operation)
    requires Enabled(s, a) && Out(s, x)
    ensures Out(Next(s, a), x)
  {
    match a
    case AddBegin(_, _) => OutStaysInCall(s, a, x);
    case AddCommit(_) => OutStaysInCall(s, a, x);
    case Cancel(_) => OutStaysInCall(s, a, x);
    case TailHook(_) =>
    case TailDelete(op) => assert multiset{op}[op] == 1;
    case WorkerStep(i) => SteppedCounts(s, s.core.workers[i], x);
    case DetachedStep(i) => SteppedCounts(s, s.detached[i], x);
    case DrainWorker => assert HeadDrained(s).left == s.left && HeadDrained(s).leaving == s.leaving;
    case DisposeDelete =>
    case _ => LedgersStay(s, a);
  }

  lemma OutStaysInCall(s: State, a: Action, x: Operation)
    requires Enabled(s, a) && Out(s, x) && (a.AddBegin? || a.AddCommit? || a.Cancel?)
    ensures Out(Next(s, a), x)
  {
    match a
    case AddBegin(op, priority) => assert s.leaving <= Begun(s, op, priority).leaving;
    case AddCommit(op) => assert s.leaving <= Committed(s, op).leaving;
    case Cancel(op) => assert s.leaving <= CancelTaken(s, op).leaving;
  }

  lemma LedgersStay(s: State, a: Action)
    requires Enabled(s, a)
    requires a.Initialize? || a.DispatchTurn? || a.DispatcherExit? || a.StopBegin? || a.StopJoined? || a.StopAddsDone?
          || a.StopDetach? || a.StopWorker? || a.DropWorker? || a.WorkersGone? || a.TakeWaiting? || a.DisposeHook? || a.StopFinish?
    ensures var t := Next(s, a);
      t.leaving == s.leaving && t.left == s.left && t.deleted == s.deleted && t.performed == s.performed
  {
    match a
    case Initialize(_) =>
    case DispatchTurn =>
    case DispatcherExit =>
    case StopBegin =>
    case StopJoined =>
    case StopAddsDone =>
    case StopDetach =>
    case StopWorker =>
    case DropWorker =>
    case WorkersGone =>
    case TakeWaiting =>
    case DisposeHook =>
    case StopFinish =>
  }

  /** Only a worker that owns an operation performs it. */
  lemma PerformerOwns(s: State, a: Action, x: Operation)
    requires Shape(s) && Enabled(s, a) && WorkersOwn(s.core.workers, x) == 0 && WorkersOwn(s.detached, x) == 0
    ensures Next(s, a).performed[x] == s.performed[x]
  {
    match a
    case WorkerStep(i) => IdleStep(s, s.core.workers, i, x);
    case DetachedStep(i) => IdleStep(s, s.detached, i, x);
    case AddBegin(_, _) => NobodyPerforms(s, a);
    case AddCommit(_) => NobodyPerforms(s, a);
    case TailHook(_) => NobodyPerforms(s, a);
    case TailDelete(_) => NobodyPerforms(s, a);
    case Cancel(_) => NobodyPerforms(s, a);
    case DrainWorker => NobodyPerforms(s, a);
    case DisposeDelete => NobodyPerforms(s, a);
    case _ => LedgersStay(s, a);
  }

  lemma IdleStep(s: State, workers: seq<Worker>, i: nat, x: Operation)
    requires WorkersOk(workers) && i < |workers| && WorkersOwn(workers, x) == 0
    ensures Stepped(s, workers[i]).performed[x] == s.performed[x]
  {
    OwnedIsCounted(workers, i, x);
    assert WorkerOk(workers[i]);
    IdleBody(s, workers[i], x);
  }

  lemma NobodyPerforms(s: State, a: Action)
    requires Enabled(s, a)
    requires a.AddBegin? || a.AddCommit? || a.TailHook? || a.TailDelete? || a.Cancel? || a.DrainWorker? || a.DisposeDelete?
    ensures Next(s, a).performed == s.performed
  {
    match a
    case AddBegin(_, _) =>
    case AddCommit(_) =>
    case TailHook(_) =>
    case TailDelete(_) =>
    case Cancel(_) =>
    case DrainWorker =>
    case DisposeDelete =>
  }

  lemma IdleBody(s: State, w: Worker, x: Operation)
    requires WorkerOk(w) && Owned(w.queue, x) == 0
    ensures Stepped(s, w).performed[x] == s.performed[x]
  {
    SteppedCounts(s, w, x);
    QueuedIsOwned(w.queue, x);
  }

  /** A marked operation stays marked until its add commits, and then leaves. */
  lemma DoomedStep(s: State, a: Action, x: Operation)
    requires Enabled(s, a) && Doomed(s, x) && x in s.handed
    ensures Doomed(Next(s, a), x) || Out(Next(s, a), x)
  {
    if a.AddBegin? {
      DoomedAddBegin(s, a.op, a.priority, x);
    } else if a.AddCommit? {
      DoomedAddCommit(s, a.op, x);
    } else if a.Cancel? {
      DoomedCancel(s, a.op, x);
    } else {
      PendingStays(s, a);
    }
  }

  lemma PendingStays(s: State, a: Action)
    requires Enabled(s, a) && !a.AddBegin? && !a.AddCommit? && !a.Cancel?
    ensures Next(s, a).core.pending == s.core.pending
  {
  }

  lemma DoomedAddBegin(s: State, op: Operation, priority: Priority, x: Operation)
    requires Enabled(s, AddBegin(op, priority)) && Doomed(s, x) && x in s.handed
    ensures Doomed(Begun(s, op, priority), x)
  {
    BegunKeepsMarks(s.core, op, priority);
    var p, q := s.core.pending, Begun(s, op, priority).core.pending;
    var i :| 0 <= i < |p| && p[i].op == x;
    assert q[i].op == x;
  }

  /** An add leaves the held operations and their marks, and holds at most its own. */
  lemma BegunKeepsMarks(c: Core, op: Operation, priority: Priority)
    ensures var p, q := c.pending, AddBegun(c, op, priority).0.pending;
      && |p| <= |q| <= |p| + 1
      && (forall k :: 0 <= k < |p| ==> q[k].op == p[k].op && q[k].canceled == p[k].canceled)
      && (forall k :: |p| <= k < |q| ==> q[k].op == op)
  {
  }

  /** The marked operation's own add keeps it. */
  lemma DoomedLeaves(s: State, x: Operation)
    requires Enabled(s, AddCommit(x)) && Doomed(s, x)
    ensures x in Committed(s, x).leaving
  {
    FirstPending(s.core.pending, x);
  }

  lemma FirstPending(p: seq<Pending>, x: Operation)
    requires exists k :: 0 <= k < |p| && p[k].op == x
    ensures var at := FirstMatching(p, PendingFor(x)); at < |p| && p[at].op == x
  {
    var k :| 0 <= k < |p| && p[k].op == x;
    assert PendingFor(x)(p[k]);
  }

  lemma CommitErases(c: Core, op: Operation) returns (at: nat)
    requires exists k :: 0 <= k < |c.pending| && c.pending[k].op == op
    ensures at < |c.pending| && c.pending[at].op == op
    ensures AddCommitted(c, op).0.pending == c.pending[..at] + c.pending[at + 1..]
  {
    FirstPending(c.pending, op);
    at := FirstMatching(c.pending, PendingFor(op));
  }

  lemma DoomedAddCommit(s: State, op: Operation, x: Operation)
    requires Enabled(s, AddCommit(op)) && Doomed(s, x)
    ensures Doomed(Committed(s, op), x) || Out(Committed(s, op), x)
  {
    if op == x {
      DoomedLeaves(s, x);
    } else {
      var at := CommitErases(s.core, op);
      StillMarked(s.core.pending, at, x);
      assert Committed(s, op).core == AddCommitted(s.core, op).0;
    }
  }

  lemma StillMarked(p: seq<Pending>, at: nat, x: Operation)
    requires at < |p| && p[at].op != x && IsMarked(p, x) && exists i :: 0 <= i < |p| && p[i].op == x
    ensures var q := p[..at] + p[at + 1..]; IsMarked(q, x) && exists i :: 0 <= i < |q| && q[i].op == x
  {
    var q := p[..at] + p[at + 1..];
    var i :| 0 <= i < |p| && p[i].op == x;
    assert forall j :: 0 <= j < |q| ==> q[j] == p[if j < at then j else j + 1];
    assert q[if i < at then i else i - 1].op == x;
  }

  lemma DoomedCancel(s: State, op: Operation, x: Operation)
    requires Enabled(s, Cancel(op)) && Doomed(s, x)
    ensures Doomed(CancelTaken(s, op), x)
  {
    CancelKeepsMarks(s.core, op);
    var p, q := s.core.pending, CancelTaken(s, op).core.pending;
    var i :| 0 <= i < |p| && p[i].op == x;
    assert q[i].op == x;
  }

  /** A cancel leaves the held operations, and takes no mark away. */
  lemma CancelKeepsMarks(c: Core, op: Operation)
    requires FrontsExist(c.workers)
    ensures var p, q := c.pending, Cancelled(c, op).0.pending;
      |q| == |p| && forall k :: 0 <= k < |p| ==> q[k].op == p[k].op && (p[k].canceled ==> q[k].canceled)
  {
  }

  lemma FinalStep(s: State, a: Action, x: Operation)
    requires StateInv(s) && Enabled(s, a) && Final(s, x)
    ensures Final(Next(s, a), x)
  {
    FinalIsNowhere(s, x);
    PerformerOwns(s, a, x);
    if Out(s, x) {
      OutStays(s, a, x);
    } else {
      DoomedStep(s, a, x);
    }
    HandedStays(s, a, x);
  }

  lemma HandedStays(s: State, a: Action, x: Operation)
    requires Enabled(s, a) && x in s.handed
    ensures x in Next(s, a).handed
  {
  }

  lemma {:induction false} FinalRun(start: State, actions: seq<Action>, end: State, x: Operation)
    requires StateInv(start) && Final(start, x) && IsRun(start, actions, end)
    ensures StateInv(end) && Final(end, x)
    decreases |actions|
  {
    if actions != [] {
      FinalStep(start, actions[0], x);
      StepKeepsInv(start, actions[0]);
      FinalRun(Next(start, actions[0]), actions[1..], end, x);
    }
  }

  /** The cancel takes the operation out, or marks it, before it is performed. */
  lemma CancelMakesFinal(s: State, op: Operation)
    requires StateInv(s) && PerformedOnce(s, op) && Enabled(s, Cancel(op))
    requires Answer(s, op) in {MarkedPending, TookWaiting, TookAssigned}
    ensures Final(CancelTaken(s, op), op)
  {
    StepKeepsInv(s, Cancel(op));
    PerformStep(s, Cancel(op), op);
    if Answer(s, op) == MarkedPending {
      OneMark(s, op);
    } else {
      TakenIsOut(s, op);
    }
    NoPlaceNoBody(CancelTaken(s, op), op);
  }

  lemma TakenIsOut(s: State, op: Operation)
    requires Enabled(s, Cancel(op)) && Answer(s, op) in {TookWaiting, TookAssigned}
    ensures var t := CancelTaken(s, op);
      op in t.leaving || (t.spared[op] >= 1 && t.deleted[op] >= 1)
  {
    assert multiset{op}[op] == 1;
  }

  /** Outside the lanes and the workers, an operation that nobody performed is not performed. */
  lemma NoPlaceNoBody(t: State, x: Operation)
    requires StateInv(t) && PerformedOnce(t, x)
    requires Doomed(t, x) || x in t.leaving || t.spared[x] >= 1
    ensures x in t.handed && t.performed[x] == 0
  {
    assert Ledgers(t, x);
    PassedAtMostOwned(t.core.workers, x);
    PassedAtMostOwned(t.detached, x);
    if Doomed(t, x) {
      var i :| 0 <= i < |t.core.pending| && t.core.pending[i].op == x;
      PendingIsCounted(t.core.pending, i, x);
    }
  }

  lemma OneMark(s: State, op: Operation)
    requires StateInv(s) && Enabled(s, Cancel(op)) && Answer(s, op) == MarkedPending
    ensures Doomed(CancelTaken(s, op), op)
  {
    CancelledInVerdict(s.core.workers, op);
    assert Ledgers(s, op);
    var p, q := s.core.pending, CancelTaken(s, op).core.pending;
    var i := FirstMatching(p, PendingFor(op));
    assert i < |p| && p[i].op == op;
    PendingOnce(p, i, op);
    assert q[i].op == op;
  }

  /** An operation counted once stands at one place. */
  lemma {:induction false} PendingOnce(s: seq<Pending>, i: nat, x: Operation)
    requires i < |s| && s[i].op == x && PendingCount(s, x) <= 1
    ensures forall k :: 0 <= k < |s| && s[k].op == x ==> k == i
  {
    forall k | 0 <= k < |s| && s[k].op == x ensures k == i {
      PendingTwice(s, if i < k then i else k, if i < k then k else i, x);
    }
  }

  lemma {:induction false} PendingTwice(s: seq<Pending>, i: nat, k: nat, x: Operation)
    requires i <= k < |s| && s[i].op == x && s[k].op == x
    ensures i < k ==> PendingCount(s, x) >= 2
  {
    if i < k {
      if i == 0 {
        PendingIsCounted(s[1..], k - 1, x);
      } else {
        PendingTwice(s[1..], i - 1, k - 1, x);
      }
    }
  }

  /** After a cancel that was answered by taking or marking the operation, it is in no lane and
      with no worker in any state reached, and it is never performed. */
  lemma CancelIsFinal(before: seq<Action>, s: State, op: Operation, after: seq<Action>, t: State)
    requires IsRun(INITIAL, before, s) && Enabled(s, Cancel(op))
    requires Answer(s, op) in {MarkedPending, TookWaiting, TookAssigned}
    requires IsRun(Next(s, Cancel(op)), after, t)
    ensures !Waits(t.core.lanes, op) && NoneHolds(t.core.workers, op) && NoneHolds(t.detached, op)
    ensures t.performed[op] == 0
  {
    InitialInv();
    ReachableInv(before, s);
    PerformRun(INITIAL, before, s, op);
    CancelMakesFinal(s, op);
    StepKeepsInv(s, Cancel(op));
    FinalRun(Next(s, Cancel(op)), after, t, op);
    FinalIsNowhere(t, op);
  }

  /** An answer that the operation is active or unknown leaves everything as it was. */
  lemma OtherAnswersChangeNothing(s: State, op: Operation)
    requires Enabled(s, Cancel(op)) && Answer(s, op) in {IsActive, Unknown}
    ensures Next(s, Cancel(op)) == s
  {
    NothingTaken(s.core.workers, op);
  }

  lemma {:induction false} NothingTaken(s: seq<Worker>, op: Operation)
    requires FrontsExist(s)
    ensures CancelledIn(s, op).1 in {IsActive, Unknown} ==> CancelledIn(s, op).0 == s
  {
    if s != [] {
      assert s == [s[0]] + s[1..];
      CancelledInOne(s[0], s[1..], op);
      NothingTaken(s[1..], op);
    }
  }
}
