/** What every call does to the lanes, place by place, in every reachable state. */
module SchedulerOrder {
  import opened Operations
  import opened SchedulingPolicy
  import opened TransferQueue
  import opened SchedulerCore
  import opened SchedulerRuns
  import opened SchedulerLedger
  import opened SchedulerSafety
  import opened SchedulerTheorems
  import opened SchedulerCancels

  function Lane(l: Lanes, p: Priority): seq<Operation> {
    if p == Urgent then l.urgent else l.normal
  }

  function Other(p: Priority): Priority {
    if p == Urgent then Normal else Urgent
  }

  /** One lane has the operation as its new last one; the other lane is as it was. */
  ghost predicate GainsLast(before: Lanes, after: Lanes, p: Priority, op: Operation) {
    Lane(after, p) == Lane(before, p) + [op] && Lane(after, Other(p)) == Lane(before, Other(p))
  }

  /** One lane has lost the operation at place `k`; all others stand as they stood. */
  ghost predicate Loses(before: Lanes, after: Lanes, p: Priority, k: nat, op: Operation) {
    var lane := Lane(before, p);
    && k < |lane| && lane[k] == op && Lane(after, p) == lane[..k] + lane[k + 1..]
    && Lane(after, Other(p)) == Lane(before, Other(p))
  }

  lemma ErasedAt(s: seq<Operation>, op: Operation) returns (k: nat)
    requires op in s
    ensures k < |s| && s[k] == op && Erased(s, op) == s[..k] + s[k + 1..]
  {
    k := FirstIndexOf(s, op);
  }

  lemma FirstPendingIs(s: seq<Pending>, i: nat, op: Operation)
    requires i < |s| && s[i].op == op && PendingCount(s, op) <= 1
    ensures FirstMatching(s, PendingFor(op)) == i
  {
    PendingOnce(s, i, op);
    assert PendingFor(op)(s[i]);
    assert !(i < FirstMatching(s, PendingFor(op)));
  }

  /** A committed add stands last in the lane of its priority, unless it was cancelled or the
      scheduler has stopped accepting: then the call keeps it. */
  lemma CommitGoesLast(actions: seq<Action>, s: State, op: Operation, i: nat)
    requires IsRun(INITIAL, actions, s) && i < |s.core.pending| && s.core.pending[i].op == op
    ensures var p, t := s.core.pending, Next(s, AddCommit(op));
      && t.core.pending == p[..i] + p[i + 1..] && t.core.workers == s.core.workers
      && if !p[i].canceled && s.core.accepting
         then GainsLast(s.core.lanes, t.core.lanes, p[i].priority, op) && t.leaving == s.leaving
         else t.core.lanes == s.core.lanes && t.leaving == s.leaving + {op}
  {
    ReachableInv(actions, s);
    assert Ledgers(s, op);
    FirstPendingIs(s.core.pending, i, op);
  }

  lemma RemovedLoses(l: Lanes, op: Operation) returns (p: Priority, k: nat)
    requires Waits(l, op)
    ensures Loses(l, Removed(l, op), p, k, op)
  {
    p := if op in l.urgent then Urgent else Normal;
    k := ErasedAt(Lane(l, p), op);
  }

  lemma LanesAfterCancel(c: Core, op: Operation)
    requires FrontsExist(c.workers)
    ensures var (d, verdict) := Cancelled(c, op);
      if verdict == TookWaiting then Waits(c.lanes, op) && d.lanes == Removed(c.lanes, op) else d.lanes == c.lanes
  {
    CancelledInVerdict(c.workers, op);
  }

  /** A cancel takes the operation out of its place, or leaves the lanes alone. */
  lemma CancelTakesOne(s: State, op: Operation)
    requires Enabled(s, Cancel(op))
    ensures var before, after := s.core.lanes, Next(s, Cancel(op)).core.lanes;
      if Answer(s, op) == TookWaiting then exists p, k :: Loses(before, after, p, k, op) else after == before
  {
    LanesAfterCancel(s.core, op);
    if Answer(s, op) == TookWaiting {
      var p, k := RemovedLoses(s.core.lanes, op);
    }
  }

  // ---------- adds ----------

  ghost predicate HasEqual(c: Core, op: Operation) {
    exists w :: IsWaiting(c, w) && Equals(op, w)
  }

  lemma EqualIsTheSame(c: Core, op: Operation, v: Operation, w: Operation)
    requires NoEqualWaiting(c) && IsWaiting(c, v) && IsWaiting(c, w) && Equals(op, v) && Equals(op, w)
    ensures v == w
  {
    assert Equals(v, w);
  }

  /** An add is refused, held, or merged, and this is all that it changes. */
  lemma AddIsSettled(actions: seq<Action>, s: State, op: Operation, priority: Priority)
    requires IsRun(INITIAL, actions, s) && Enabled(s, AddBegin(op, priority))
    ensures var c, t := s.core, Next(s, AddBegin(op, priority));
      && (!c.accepting ==> t.core == c && t.leaving == s.leaving + {op})
      && (c.accepting && !HasEqual(c, op) ==>
            t.core == c.(pending := c.pending + [Pending(op, priority, false)]) && t.leaving == s.leaving)
      && (c.accepting && HasEqual(c, op) ==>
            t.leaving == s.leaving + {op} && (priority == Normal ==> t.core == c))
  {
    ReachableInv(actions, s);
    if s.core.accepting {
      MergeKeepsCountAndPromotes(s.core, op, priority);
    }
  }

  /** An urgent add moves the equal operation from the normal lane to the end of the urgent
      one, or marks it as urgent while it is held. */
  lemma MergePromotes(actions: seq<Action>, s: State, op: Operation, w: Operation)
    requires IsRun(INITIAL, actions, s) && Enabled(s, AddBegin(op, Urgent)) && s.core.accepting
    requires IsWaiting(s.core, w) && Equals(op, w)
    ensures var c, d := s.core, Next(s, AddBegin(op, Urgent)).core;
      && d.workers == c.workers
      && (w in c.lanes.urgent ==> d == c)
      && (w in c.lanes.normal && w !in c.lanes.urgent ==>
            && d.pending == c.pending && d.lanes.urgent == c.lanes.urgent + [w]
            && exists k: nat :: k < |c.lanes.normal| && c.lanes.normal[k] == w
                 && d.lanes.normal == c.lanes.normal[..k] + c.lanes.normal[k + 1..])
      && (!Waits(c.lanes, w) ==>
            && d.lanes == c.lanes
            && exists i: nat :: i < |c.pending| && c.pending[i].op == w
                 && d.pending == c.pending[i := c.pending[i].(priority := Urgent)])
  {
    ReachableInv(actions, s);
    var c := s.core;
    var duplicate := Found(c.lanes, EqualTo(op));
    var i := FirstMatching(c.pending, PendingEqualTo(op));
    if duplicate.Some? {
      EqualIsTheSame(c, op, w, duplicate.value);
      if w !in c.lanes.urgent {
        var k := ErasedAt(c.lanes.normal, w);
      }
    } else {
      assert !EqualTo(op)(w) || !Waits(c.lanes, w);
      HeldEqual(c, op, w);
      EqualIsTheSame(c, op, w, c.pending[i].op);
    }
  }

  lemma HeldEqual(c: Core, op: Operation, w: Operation)
    requires IsWaiting(c, w) && !Waits(c.lanes, w) && Equals(op, w)
    ensures var i := FirstMatching(c.pending, PendingEqualTo(op));
      i < |c.pending| && !c.pending[i].canceled && Equals(op, c.pending[i].op) && IsWaiting(c, c.pending[i].op)
  {
    var k :| 0 <= k < |c.pending| && c.pending[k].op == w && !c.pending[k].canceled;
    assert PendingEqualTo(op)(c.pending[k]);
    var i := FirstMatching(c.pending, PendingEqualTo(op));
    assert PendingEqualTo(op)(c.pending[i]);
  }

  // ---------- dispatches ----------

  ghost predicate SomeIdle(c: Core) {
    exists i :: 0 <= i < |c.workers| && IsIdle(c.workers[i])
  }

  ghost predicate SomeFree(c: Core) {
    exists op :: Waits(c.lanes, op) && !WorkerConflict(c.workers, op)
  }

  /** The first idle worker has this operation and nothing else; the other workers, and the
      held adds, are as they were. */
  ghost predicate Given(c: Core, d: Core, i: nat, op: Operation) {
    && i < |c.workers| && IsIdle(c.workers[i]) && (forall j :: 0 <= j < i ==> !IsIdle(c.workers[j]))
    && |d.workers| == |c.workers| && d.workers[i].operations == [op] && d.workers[i].queue.ops == [op]
    && (forall j :: 0 <= j < |c.workers| && j != i ==> d.workers[j] == c.workers[j])
    && d.pending == c.pending
  }

  /** A turn of the dispatch thread gives out an operation exactly when a worker is idle and
      an operation waits that conflicts with nothing assigned. */
  lemma DispatchesWhenItCan(actions: seq<Action>, s: State)
    requires IsRun(INITIAL, actions, s) && Enabled(s, DispatchTurn)
    ensures var c, d := s.core, Next(s, DispatchTurn).core;
      if SomeIdle(c) && SomeFree(c)
      then exists i, op, p, k :: Given(c, d, i, op) && !WorkerConflict(c.workers, op) && Loses(c.lanes, d.lanes, p, k, op)
      else d == c
  {
    ReachableInv(actions, s);
    var c := s.core;
    var dispatch := Dispatched(c).1;
    DispatchedWhen(c);
    if dispatch.Some? {
      var Dispatch(i, op) := dispatch.value;
      var p, k := LosesTaken(c.lanes, FreeOfConflict(c.workers));
      GivenToIdle(c);
      assert Given(c, Dispatched(c).0, i, op) && Loses(c.lanes, Dispatched(c).0.lanes, p, k, op);
    }
  }

  lemma DispatchedWhen(c: Core)
    requires !c.stopping
    ensures Dispatched(c).1.Some? <==> SomeIdle(c) && SomeFree(c)
  {
    TakenContent(c.lanes, FreeOfConflict(c.workers));
    var op := TakenMatching(c.lanes, FreeOfConflict(c.workers)).0;
    assert SomeFree(c) <==> op.Some? by {
      if op.Some? {
        assert FreeOfConflict(c.workers)(op.value);
      }
    }
  }

  lemma LosesTaken(l: Lanes, test: Operation -> bool) returns (p: Priority, k: nat)
    requires TakenMatching(l, test).0.Some?
    ensures Loses(l, TakenMatching(l, test).1, p, k, TakenMatching(l, test).0.value)
  {
    var u := FirstMatching(l.urgent, test);
    if u < |l.urgent| {
      p, k := Urgent, u;
    } else {
      p, k := Normal, FirstMatching(l.normal, test);
    }
  }

  lemma GivenToIdle(c: Core)
    requires WorkersOk(c.workers) && Serving(c) && !c.stopping && Dispatched(c).1.Some?
    ensures var (d, dispatch) := Dispatched(c);
      Given(c, d, dispatch.value.worker, dispatch.value.op) && !WorkerConflict(c.workers, dispatch.value.op)
  {
    var Dispatch(i, op) := Dispatched(c).1.value;
    assert WorkerOk(c.workers[i]);
    AssignedLedger(c.workers[i], op, op);
    assert [] + [op] == [op];
    assert FreeOfConflict(c.workers)(op);
  }
}
