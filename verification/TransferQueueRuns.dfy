/** Every run of one transfer queue: the thread that created it makes the calls, any other
    thread may begin its teardown, and the queue thread steps in between. */
module TransferQueueRuns {
  import opened Operations
  import opened TransferQueue

  /** What the creating thread is doing: nothing, between the two sections of an add, or
      inside Deinitialize. */
  datatype Client = Free | Adding(op: Operation) | Stopping

  /** The ledgers count events since the queue was created. `performed` counts the calls of
      Perform; `spared` the operations that went without one: rejected, dropped, cancelled or
      cleared by a call, drained unstarted, or with an execution cancelled by a teardown before
      the thread could start it. */
  datatype Run = Run(
    q: Queue, client: Client, handed: set<Operation>,
    started: multiset<Operation>, hooked: multiset<Operation>,
    unhooked: multiset<Operation>, deleted: multiset<Operation>,
    performed: multiset<Operation>, spared: multiset<Operation>)

  datatype Action =
    | Initialize
    | AddCheck(op: Operation)
    | AddAppend
    | Cancel(target: Operation)
    | Clear(suppress: bool)
    | BeginTeardown
    | ThreadStep
    | RequestStop
    | DrainOne
    | FinishStop

  const INITIAL :=
    Run(FRESH_QUEUE.(phase := Absent), Free, {}, multiset{}, multiset{}, multiset{}, multiset{}, multiset{}, multiset{})

  /** Every operation object is handed over once. */
  predicate Enabled(r: Run, a: Action) {
    match a
    case Initialize => r.client.Free? && r.q.phase == Absent
    case AddCheck(op) => r.client.Free? && op !in r.handed
    case AddAppend => r.client.Adding?
    case Cancel(_) => r.client.Free? && (r.q.performing ==> r.q.ops != [])
    case Clear(_) => r.client.Free? && (r.q.performing ==> r.q.ops != [])
    case BeginTeardown => true
    case ThreadStep => LoopEnabled(r.q) && (r.q.phase == Removing ==> r.q.ops != [])
    case RequestStop => r.client.Free? && r.q.phase != Absent
    case DrainOne => r.client.Stopping? && r.q.phase == Exited && r.q.ops != []
    case FinishStop => r.client.Stopping? && r.q.phase == Exited && r.q.ops == []
  }

  ghost function Next(r: Run, a: Action): Run
    requires Enabled(r, a)
  {
    match a
    case Initialize => r.(q := r.q.(stopping := false, teardown := false, phase := AtTop))
    case AddCheck(op) => Checked(r.(handed := r.handed + {op}), op)
    case AddAppend => r.(q := Appended(r.q, r.client.op), client := Free)
    case Cancel(op) => Cancelled(r, op)
    case Clear(suppress) => ClearedRun(r, suppress)
    case BeginTeardown => r.(q := TornDown(r.q))
    case ThreadStep => Stepped(r)
    case RequestStop => r.(q := StopRequested(r.q), client := Stopping)
    case DrainOne => DrainedRun(r)
    case FinishStop => r.(q := Deinitialized(r.q), client := Free)
  }

  /** Deleted by a call, without having been performed. */
  ghost function Spared(r: Run, gone: multiset<Operation>): Run {
    r.(deleted := r.deleted + gone, spared := r.spared + gone)
  }

  /** A rejected operation is cancelled, hooked and deleted; a duplicate is only deleted. */
  ghost function Checked(r: Run, op: Operation): Run {
    match Admit(r.q, op)
    case Rejected => Spared(r.(hooked := r.hooked + multiset{op}), multiset{op})
    case Dropped => Spared(r.(unhooked := r.unhooked + multiset{op}), multiset{op})
    case Accepted => r.(client := Adding(op))
  }

  ghost function Cancelled(r: Run, op: Operation): Run
    requires r.q.performing ==> r.q.ops != []
  {
    if CancelResult(r.q, op) == Canceled then
      Spared(r.(q := AfterCancel(r.q, op), hooked := r.hooked + multiset{op}), multiset{op})
    else r
  }

  ghost function Unmarked(s: seq<Operation>): seq<Operation> {
    if s == [] then []
    else (if IsCompletionMarker(s[0]) then [] else [s[0]]) + Unmarked(s[1..])
  }

  ghost function Marked(s: seq<Operation>): seq<Operation> {
    Kept(s, false)
  }

  ghost function ClearedRun(r: Run, suppress: bool): Run
    requires r.q.performing ==> r.q.ops != []
  {
    var gone := Discarded(Waiting(r.q), suppress);
    Spared(
      r.(q := Cleared(r.q, suppress),
         hooked := r.hooked + multiset(Unmarked(gone)),
         unhooked := r.unhooked + multiset(Marked(gone))),
      multiset(gone))
  }

  ghost function Stepped(r: Run): Run
    requires Enabled(r, ThreadStep)
  {
    var q := r.q;
    var current := if q.current.Some? then multiset{q.current.value} else multiset{};
    r.(q := LoopNext(q),
       started := r.started + if q.phase == AtTop && !q.stopping then multiset{q.ops[0]} else multiset{},
       hooked := r.hooked + if q.phase == Performed then current else multiset{},
       deleted := r.deleted + (if q.phase == Reported then current else multiset{}),
       performed := r.performed + (if q.phase == Performing then current else multiset{}),
       spared := r.spared + if q.phase == Running && q.canceled then current else multiset{})
  }

  ghost function DrainedRun(r: Run): Run
    requires r.q.ops != []
  {
    var op := multiset{r.q.ops[0]};
    r.(q := Drained(r.q),
       hooked := r.hooked + if DrainCallsHook(r.q) then op else multiset{},
       deleted := r.deleted + op,
       spared := r.spared + if DrainCallsHook(r.q) then op else multiset{})
  }

  // ---------- the invariant ----------

  ghost function HeldByClient(r: Run, x: Operation): nat {
    One(r.client == Adding(x))
  }

  /** Each handed operation is in exactly one place, or deleted, and never twice. */
  ghost predicate Conserved(r: Run, x: Operation) {
    Owned(r.q, x) + HeldByClient(r, x) + r.deleted[x] == One(x in r.handed)
  }

  /** The terminal hook is called once for everything deleted that was not dropped. */
  ghost predicate HookedOnce(r: Run, x: Operation) {
    r.hooked[x] + r.unhooked[x] == r.deleted[x] + One(HookCalled(r.q, x))
  }

  /** Whatever has been started is still with the thread or deleted. */
  ghost predicate StartedOnce(r: Run, x: Operation) {
    r.started[x] <= r.deleted[x] + One(InLoop(r.q, x))
  }

  ghost predicate Ledgers(r: Run, x: Operation) {
    Conserved(r, x) && HookedOnce(r, x) && StartedOnce(r, x)
  }

  /** Whatever has been performed or spared is deleted, or still with the thread after its
      body; and nothing is deleted otherwise. */
  ghost predicate PerformedOnce(r: Run, x: Operation) {
    r.performed[x] + r.spared[x] == r.deleted[x] + One(PassedBody(r.q, x))
  }

  ghost predicate Shape(r: Run) {
    && Inv(r.q)
    && (r.client.Stopping? <==> r.q.stopping)
    && (r.client.Stopping? ==> r.q.phase != Absent)
  }

  ghost predicate RunInv(r: Run) {
    Shape(r) && (forall x :: Ledgers(r, x)) && forall x :: PerformedOnce(r, x)
  }

  lemma ShapeStep(r: Run, a: Action)
    requires Shape(r) && Enabled(r, a)
    requires forall x :: Conserved(r, x)
    ensures Shape(Next(r, a))
  {
    match a
    case AddAppend => ClientCallsKeepInv(r.q, r.client.op, false);
    case Cancel(op) => ClientCallsKeepInv(r.q, op, false);
    case Clear(suppress) => ClientCallsKeepInv(r.q, SOME_OPERATION, suppress);
    case ThreadStep => LoopKeepsInv(r.q);
    case DrainOne =>
      assert Conserved(r, r.q.ops[0]);
      DrainLedger(r.q, r.q.ops[0]);
    case Initialize => FlagShape(r, a);
    case AddCheck(_) =>
    case BeginTeardown => FlagShape(r, a);
    case RequestStop => FlagShape(r, a);
    case FinishStop => FlagShape(r, a);
  }

  lemma FlagShape(r: Run, a: Action)
    requires Shape(r) && Enabled(r, a)
    requires a.Initialize? || a.BeginTeardown? || a.RequestStop? || a.FinishStop?
    ensures Shape(Next(r, a))
  {
    match a
    case Initialize =>
    case BeginTeardown =>
    case RequestStop =>
    case FinishStop =>
  }

  const SOME_OPERATION := Operation(0, Upload, 0, 0, "", "")

  lemma {:induction false} UnmarkedAndMarked(s: seq<Operation>, x: Operation)
    ensures multiset(Unmarked(s))[x] + multiset(Marked(s))[x] == multiset(s)[x]
  {
    if s != [] {
      UnmarkedAndMarked(s[1..], x);
      FrontCount(s, x);
      if IsCompletionMarker(s[0]) {
        var m := [s[0]] + Kept(s[1..], false);
        FrontCount(m, x);
        assert m[1..] == Kept(s[1..], false);
        assert [] + Unmarked(s[1..]) == Unmarked(s[1..]);
      } else {
        var u := [s[0]] + Unmarked(s[1..]);
        FrontCount(u, x);
        assert u[1..] == Unmarked(s[1..]);
      }
    }
  }

  lemma ClearStep(r: Run, suppress: bool, x: Operation)
    requires Shape(r) && Ledgers(r, x) && Enabled(r, Clear(suppress))
    ensures Ledgers(ClearedRun(r, suppress), x)
  {
    var gone := Discarded(Waiting(r.q), suppress);
    ClearLedger(r.q, suppress, x);
    UnmarkedAndMarked(gone, x);
  }

  lemma ThreadStepLedgers(r: Run, x: Operation)
    requires Shape(r) && Ledgers(r, x) && Enabled(r, ThreadStep)
    ensures Ledgers(Stepped(r), x)
  {
    LoopLedger(r.q, x);
    if r.q.phase == AtTop && !r.q.stopping {
      FrontCount(r.q.ops, x);
      // Only a waiting operation is started, and a waiting one has not been started before.
      assert x == r.q.ops[0] ==> Owned(r.q, x) > 0;
      assert Stepped(r).started[x] == r.started[x] + One(x == r.q.ops[0]);
      assert !InLoop(r.q, x);
    }
  }

  lemma AddCheckLedgers(r: Run, op: Operation, x: Operation)
    requires Shape(r) && Ledgers(r, x) && Enabled(r, AddCheck(op))
    ensures Ledgers(Next(r, AddCheck(op)), x)
  {
  }

  lemma AddAppendLedgers(r: Run, x: Operation)
    requires Shape(r) && Ledgers(r, x) && Enabled(r, AddAppend)
    ensures Ledgers(Next(r, AddAppend), x)
  {
    assert multiset(r.q.ops + [r.client.op])[x] == multiset(r.q.ops)[x] + One(x == r.client.op);
  }

  lemma CancelLedgers(r: Run, op: Operation, x: Operation)
    requires Shape(r) && Ledgers(r, x) && Enabled(r, Cancel(op))
    ensures Ledgers(Next(r, Cancel(op)), x)
  {
    if CancelResult(r.q, op) == Canceled {
      CancelLedger(r.q, op, x);
    }
  }

  lemma DrainLedgers(r: Run, x: Operation)
    requires Shape(r) && Ledgers(r, x) && Enabled(r, DrainOne)
    requires Conserved(r, r.q.ops[0])
    ensures Ledgers(Next(r, DrainOne), x)
  {
    DrainLedger(r.q, x);
    FrontCount(r.q.ops, x);
  }

  lemma LedgerStep(r: Run, a: Action, x: Operation)
    requires Shape(r) && Enabled(r, a)
    requires Ledgers(r, x) && forall y :: Conserved(r, y)
    ensures Ledgers(Next(r, a), x)
  {
    match a
    case AddCheck(op) => AddCheckLedgers(r, op, x);
    case AddAppend => AddAppendLedgers(r, x);
    case Cancel(op) => CancelLedgers(r, op, x);
    case Clear(suppress) => ClearStep(r, suppress, x);
    case ThreadStep => ThreadStepLedgers(r, x);
    case DrainOne => DrainLedgers(r, x);
    case BeginTeardown => FlagLedgers(r, a, x);
    case RequestStop => FlagLedgers(r, a, x);
    case Initialize => InitializeLedgers(r, x);
    case FinishStop => FinishLedgers(r, x);
  }

  lemma FlagLedgers(r: Run, a: Action, x: Operation)
    requires Ledgers(r, x) && Enabled(r, a) && (a.BeginTeardown? || a.RequestStop?)
    ensures Ledgers(Next(r, a), x)
  {
    match a
    case BeginTeardown =>
    case RequestStop =>
  }

  lemma InitializeLedgers(r: Run, x: Operation)
    requires Shape(r) && Ledgers(r, x) && Enabled(r, Initialize)
    ensures Ledgers(Next(r, Initialize), x)
  {
  }

  lemma FinishLedgers(r: Run, x: Operation)
    requires Shape(r) && Ledgers(r, x) && Enabled(r, FinishStop)
    ensures Ledgers(Next(r, FinishStop), x)
  {
  }

  // ---------- bodies ----------

  lemma ThreadStepBodies(r: Run, x: Operation)
    requires Shape(r) && PerformedOnce(r, x) && Enabled(r, ThreadStep)
    ensures PerformedOnce(Stepped(r), x)
  {
    LoopBody(r.q, x);
  }

  lemma CallBodies(r: Run, a: Action, x: Operation)
    requires Shape(r) && PerformedOnce(r, x) && Enabled(r, a)
    requires a.AddCheck? || a.AddAppend? || a.Cancel?
    ensures PerformedOnce(Next(r, a), x)
  {
    match a
    case AddCheck(op) =>
    case AddAppend =>
    case Cancel(op) =>
      if CancelResult(r.q, op) == Canceled {
        CancelLedger(r.q, op, x);
      }
  }

  lemma ClearBodies(r: Run, suppress: bool, x: Operation)
    requires Shape(r) && PerformedOnce(r, x) && Enabled(r, Clear(suppress))
    ensures PerformedOnce(ClearedRun(r, suppress), x)
  {
    ClearLedger(r.q, suppress, x);
  }

  lemma DrainBodies(r: Run, x: Operation)
    requires Shape(r) && PerformedOnce(r, x) && Enabled(r, DrainOne) && Conserved(r, r.q.ops[0])
    ensures PerformedOnce(DrainedRun(r), x)
  {
    DrainLedger(r.q, x);
  }

  lemma FlagBodies(r: Run, a: Action, x: Operation)
    requires PerformedOnce(r, x) && Enabled(r, a) && (a.BeginTeardown? || a.RequestStop?)
    ensures PerformedOnce(Next(r, a), x)
  {
    match a
    case BeginTeardown =>
    case RequestStop =>
  }

  lemma EndBodies(r: Run, a: Action, x: Operation)
    requires Shape(r) && PerformedOnce(r, x) && Enabled(r, a) && (a.Initialize? || a.FinishStop?)
    ensures PerformedOnce(Next(r, a), x)
  {
    match a
    case Initialize =>
    case FinishStop =>
  }

  lemma BodyStep(r: Run, a: Action, x: Operation)
    requires Shape(r) && Enabled(r, a) && PerformedOnce(r, x) && forall y :: Conserved(r, y)
    ensures PerformedOnce(Next(r, a), x)
  {
    if a.ThreadStep? {
      ThreadStepBodies(r, x);
    } else if a.AddCheck? || a.AddAppend? || a.Cancel? {
      CallBodies(r, a, x);
    } else if a.Clear? {
      ClearBodies(r, a.suppress, x);
    } else if a.DrainOne? {
      DrainBodies(r, x);
    } else if a.BeginTeardown? || a.RequestStop? {
      FlagBodies(r, a, x);
    } else {
      EndBodies(r, a, x);
    }
  }

  lemma StepKeepsInv(r: Run, a: Action)
    requires RunInv(r) && Enabled(r, a)
    ensures RunInv(Next(r, a))
  {
    forall x ensures Conserved(r, x) {
      assert Ledgers(r, x);
    }
    ShapeStep(r, a);
    forall x ensures Ledgers(Next(r, a), x) {
      LedgerStep(r, a, x);
    }
    forall x ensures PerformedOnce(Next(r, a), x) {
      BodyStep(r, a, x);
    }
  }

  // ---------- whole runs ----------

  ghost predicate IsRun(start: Run, actions: seq<Action>, end: Run)
    decreases |actions|
  {
    if actions == [] then end == start
    else Enabled(start, actions[0]) && IsRun(Next(start, actions[0]), actions[1..], end)
  }

  lemma {:induction false} RunsKeepInv(start: Run, actions: seq<Action>, end: Run)
    requires RunInv(start) && IsRun(start, actions, end)
    ensures RunInv(end)
    decreases |actions|
  {
    if actions != [] {
      StepKeepsInv(start, actions[0]);
      RunsKeepInv(Next(start, actions[0]), actions[1..], end);
    }
  }

  lemma InitialInv()
    ensures RunInv(INITIAL)
  {
  }

  lemma ReachableInv(actions: seq<Action>, r: Run)
    requires IsRun(INITIAL, actions, r)
    ensures RunInv(r)
  {
    InitialInv();
    RunsKeepInv(INITIAL, actions, r);
  }

  /** The active operation heads the list whenever the thread performs, the thread removes
      exactly the operation it started, nothing is started, performed, hooked or deleted twice,
      and a stopped, drained queue has hooked and deleted everything it did not drop. */
  lemma TransferQueueSafety(actions: seq<Action>, r: Run)
    requires IsRun(INITIAL, actions, r)
    ensures r.q.performing ==> IsFront(r.q, r.q.active)
    ensures r.q.phase == Removing ==>
      IsFront(r.q, r.q.current) && LoopNext(r.q).ops == r.q.ops[1..] && LoopNext(r.q).current == r.q.current
    ensures forall x :: r.started[x] <= 1 && r.hooked[x] <= 1 && r.deleted[x] <= 1
    ensures forall x :: x in r.q.ops && r.q.active != Some(x) ==> r.started[x] == 0 && r.hooked[x] == 0
    ensures r.client.Free? && r.q.ops == [] && (r.q.phase == Absent || r.q.phase == AtTop) ==>
      forall x :: x in r.handed ==> r.deleted[x] == 1 && r.hooked[x] + r.unhooked[x] == 1
  {
    ReachableInv(actions, r);
    FrontIsActive(r.q);
    forall x ensures r.started[x] <= 1 && r.hooked[x] <= 1 && r.deleted[x] <= 1 {
      LedgersTell(r, x);
    }
    forall x | x in r.q.ops && r.q.active != Some(x) ensures r.started[x] == 0 && r.hooked[x] == 0 {
      LedgersTell(r, x);
    }
    if r.client.Free? && r.q.ops == [] && (r.q.phase == Absent || r.q.phase == AtTop) {
      forall x | x in r.handed ensures r.deleted[x] == 1 && r.hooked[x] + r.unhooked[x] == 1 {
        LedgersTell(r, x);
      }
    }
  }

  lemma FrontIsActive(q: Queue)
    requires Inv(q)
    ensures q.performing ==> IsFront(q, q.active)
    ensures q.phase == Removing ==>
      IsFront(q, q.current) && LoopNext(q).ops == q.ops[1..] && LoopNext(q).current == q.current
  {
  }

  ghost predicate LedgerTells(r: Run, x: Operation) {
    && r.started[x] <= 1 && r.hooked[x] <= 1 && r.deleted[x] <= 1
    && (x in r.q.ops && r.q.active != Some(x) ==> r.started[x] == 0 && r.hooked[x] == 0)
    && (r.client.Free? && r.q.ops == [] && (r.q.phase == Absent || r.q.phase == AtTop) && x in r.handed ==>
          r.deleted[x] == 1 && r.hooked[x] + r.unhooked[x] == 1)
  }

  lemma LedgersTell(r: Run, x: Operation)
    requires RunInv(r)
    ensures LedgerTells(r, x)
  {
    assert Ledgers(r, x);
    HookedIsOwned(r, x);
    if x in r.q.ops {
      assert multiset(r.q.ops)[x] > 0;
    }
  }

  // ---------- what is queued is performed ----------

  /** The thread is past the body of its operation. */
  predicate IsDone(p: Phase) {
    p == Performed || p == Ended || p == Removing || p == Popped || p == Reported
  }

  /** What the thread hooks and removes has been performed, or its execution was cancelled by a
      teardown before the thread could start it; and of everything that has gone, what was not
      performed was spared, each once. */
  lemma PerformedBeforeHook(actions: seq<Action>, r: Run, x: Operation)
    requires IsRun(INITIAL, actions, r)
    ensures r.performed[x] + r.spared[x] <= 1
    ensures r.deleted[x] == 1 ==> r.performed[x] + r.spared[x] == 1
    ensures IsDone(r.q.phase) && r.q.current == Some(x) ==> r.performed[x] + r.spared[x] == 1
    ensures x in r.q.ops && r.q.active != Some(x) ==> r.performed[x] == 0
  {
    ReachableInv(actions, r);
    assert Ledgers(r, x) && PerformedOnce(r, x);
    PassedIsOwned(r, x);
  }

  lemma PassedIsOwned(r: Run, x: Operation)
    requires Shape(r)
    ensures One(PassedBody(r.q, x)) <= Owned(r.q, x)
    ensures x in r.q.ops && r.q.active != Some(x) && Owned(r.q, x) <= 1 ==> !PassedBody(r.q, x)
  {
    assert x in r.q.ops <==> multiset(r.q.ops)[x] > 0;
  }

  /** The calls that can keep `x` from being performed. */
  predicate Disturbs(a: Action, x: Operation) {
    a == Cancel(x) || a.Clear? || a.BeginTeardown? || a.RequestStop?
  }

  ghost predicate Undisturbed(actions: seq<Action>, x: Operation) {
    forall i :: 0 <= i < |actions| ==> !Disturbs(actions[i], x)
  }

  /** No operation is spared but the duplicates that an add drops. */
  ghost predicate Calm(r: Run, x: Operation) {
    !r.q.teardown && !r.q.stopping && !r.q.canceled && r.spared[x] == r.unhooked[x] <= r.deleted[x]
  }

  lemma CalmStep(r: Run, a: Action, x: Operation)
    requires Shape(r) && Enabled(r, a) && Calm(r, x) && !Disturbs(a, x)
    ensures Calm(Next(r, a), x)
  {
    match a
    case Initialize =>
    case AddCheck(op) =>
    case AddAppend =>
    case Cancel(op) =>
    case ThreadStep =>
    case DrainOne =>
    case FinishStop =>
  }

  lemma {:induction false} CalmRun(start: Run, actions: seq<Action>, end: Run, x: Operation)
    requires RunInv(start) && Calm(start, x) && IsRun(start, actions, end) && Undisturbed(actions, x)
    ensures Calm(end, x)
    decreases |actions|
  {
    if actions != [] {
      CalmStep(start, actions[0], x);
      StepKeepsInv(start, actions[0]);
      assert forall i :: 0 <= i < |actions| - 1 ==> actions[1..][i] == actions[i + 1];
      CalmRun(Next(start, actions[0]), actions[1..], end, x);
    }
  }

  /** On a run without a teardown, a stop, a clear or a cancel of `x`: once `x` has gone it was
      performed exactly once, unless it was dropped as a duplicate; and when the list is empty
      and the thread at rest, everything handed over has gone. */
  lemma QueuedIsPerformed(actions: seq<Action>, r: Run, x: Operation)
    requires IsRun(INITIAL, actions, r) && Undisturbed(actions, x) && x in r.handed
    ensures r.deleted[x] == 1 ==> r.performed[x] + r.unhooked[x] == 1
    ensures r.client.Free? && r.q.ops == [] && r.q.phase == AtTop ==> r.performed[x] + r.unhooked[x] == 1
    ensures IsDone(r.q.phase) && r.q.current == Some(x) ==> r.performed[x] == 1
  {
    ReachableInv(actions, r);
    InitialInv();
    CalmRun(INITIAL, actions, r, x);
    CalmIsPerformed(r, x);
  }

  lemma CalmIsPerformed(r: Run, x: Operation)
    requires Shape(r) && Ledgers(r, x) && PerformedOnce(r, x) && Calm(r, x) && x in r.handed
    ensures r.deleted[x] == 1 ==> r.performed[x] + r.unhooked[x] == 1
    ensures r.client.Free? && r.q.ops == [] && r.q.phase == AtTop ==> r.performed[x] + r.unhooked[x] == 1
    ensures IsDone(r.q.phase) && r.q.current == Some(x) ==> r.performed[x] == 1
  {
    PassedIsOwned(r, x);
    assert PassedBody(r.q, x) || !(IsDone(r.q.phase) && r.q.current == Some(x));
  }

  lemma HookedIsOwned(r: Run, x: Operation)
    requires Shape(r)
    ensures One(InLoop(r.q, x)) <= Owned(r.q, x)
  {
    if InLoop(r.q, x) && !HeldByThread(r.q, x) {
      assert x in r.q.ops;
      assert multiset(r.q.ops)[x] > 0;
    }
  }
}
