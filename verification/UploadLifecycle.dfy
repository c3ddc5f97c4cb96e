/** A recursive upload from its preparation to its completion message: the preparing operation
    and the counters of its batch together. */
module UploadLifecycle {
  import opened Operations
  import P = PrepareLifecycle
  import B = UploadBatch

  datatype RecursiveUpload = RecursiveUpload(prepare: P.Preparation, batch: B.Batch)

  /** A step of the preparation, by a thread outside the batch, or one interlocked instruction
      of the batch. */
  datatype Step = Prepare(step: P.Step, thread: nat) | Count(action: B.Action)

  function Begun(selected: int): RecursiveUpload {
    RecursiveUpload(P.FRESH, B.Initialized(selected))
  }

  /** The call into the batch that a step of the preparation makes. */
  function CallMade(p: P.Preparation, q: P.Preparation, thread: nat): Option<B.Action> {
    if q.dispatched && !p.dispatched then Some(B.Dispatch(thread))
    else if q.recorded && !p.recorded then Some(B.CancelUnstarted(thread))
    else None
  }

  ghost predicate Enabled(u: RecursiveUpload, s: Step) {
    match s
    case Prepare(step, t) =>
      P.CanTake(u.prepare, step)
      && var call := CallMade(u.prepare, P.Taken(u.prepare, step), t);
         call.Some? ==> B.Enabled(u.batch, call.value)
    case Count(a) => (a.FileComplete? || a.Advance?) && B.Enabled(u.batch, a)
  }

  ghost function Next(u: RecursiveUpload, s: Step): RecursiveUpload
    requires Enabled(u, s)
  {
    match s
    case Prepare(step, t) =>
      var q := P.Taken(u.prepare, step);
      var call := CallMade(u.prepare, q, t);
      RecursiveUpload(q, if call.Some? then B.Next(u.batch, call.value) else u.batch)
    case Count(a) => u.(batch := B.Next(u.batch, a))
  }

  ghost predicate IsRun(start: RecursiveUpload, steps: seq<Step>, end: RecursiveUpload)
    decreases |steps|
  {
    if steps == [] then end == start
    else Enabled(start, steps[0]) && IsRun(Next(start, steps[0]), steps[1..], end)
  }

  /** The batch knows what the preparation has decided. */
  ghost predicate Linked(u: RecursiveUpload) {
    && P.Inv(u.prepare)
    && u.batch.dispatched == u.prepare.dispatched && u.batch.unstarted == u.prepare.recorded
  }

  lemma CountKeepsFlags(b: B.Batch, a: B.Action)
    requires B.Enabled(b, a) && (a.FileComplete? || a.Advance?)
    ensures B.Next(b, a).dispatched == b.dispatched && B.Next(b, a).unstarted == b.unstarted
  {
    match a
    case FileComplete(_, _) =>
    case Advance(t) =>
      match b.inside[t]
      case Decrement(_, _, _) =>
      case Undo(_, _) =>
      case CheckReady(_, _) =>
      case Claim(_, _) =>
      case Post(_, _) =>
  }

  lemma CallSetsFlag(b: B.Batch, a: B.Action)
    requires B.Enabled(b, a) && (a.Dispatch? || a.CancelUnstarted?)
    ensures B.Next(b, a).dispatched == (b.dispatched || a.Dispatch?)
    ensures B.Next(b, a).unstarted == (b.unstarted || a.CancelUnstarted?)
  {
  }

  /** A decision stands, and at most one is made. */
  lemma DecisionStands(p: P.Preparation, s: P.Step)
    requires P.Inv(p) && P.CanTake(p, s)
    ensures var q := P.Taken(p, s);
      && P.Inv(q) && !(q.dispatched && q.recorded)
      && (p.dispatched ==> q.dispatched) && (p.recorded ==> q.recorded)
  {
    P.StepKeepsInv(p, s);
  }

  /** What one step means for the batch alone. */
  lemma StepKeepsLink(u: RecursiveUpload, s: Step) returns (calls: seq<B.Action>)
    requires Linked(u) && Enabled(u, s)
    ensures Linked(Next(u, s)) && B.IsRun(u.batch, calls, Next(u, s).batch)
  {
    match s
    case Count(a) =>
      CountKeepsFlags(u.batch, a);
      calls := [a];
      OneAction(u.batch, a);
    case Prepare(step, t) =>
      DecisionStands(u.prepare, step);
      var call := CallMade(u.prepare, P.Taken(u.prepare, step), t);
      if call.Some? {
        CallSetsFlag(u.batch, call.value);
        calls := [call.value];
        OneAction(u.batch, call.value);
      } else {
        calls := [];
      }
  }

  lemma OneAction(b: B.Batch, a: B.Action)
    requires B.Enabled(b, a)
    ensures B.IsRun(b, [a], B.Next(b, a))
  {
    assert [a][1..] == [];
    assert B.IsRun(B.Next(b, a), [], B.Next(b, a));
  }

  lemma {:induction false} BatchRunsJoin(b: B.Batch, calls: seq<B.Action>, c: B.Batch, more: seq<B.Action>, d: B.Batch)
    requires B.IsRun(b, calls, c) && B.IsRun(c, more, d)
    ensures B.IsRun(b, calls + more, d)
    decreases |calls|
  {
    if calls == [] {
      assert calls + more == more;
    } else {
      assert (calls + more)[1..] == calls[1..] + more;
      BatchRunsJoin(B.Next(b, calls[0]), calls[1..], c, more, d);
    }
  }

  lemma {:induction false} RunsKeepLink(start: RecursiveUpload, steps: seq<Step>, end: RecursiveUpload) returns (calls: seq<B.Action>)
    requires Linked(start) && IsRun(start, steps, end)
    ensures Linked(end) && B.IsRun(start.batch, calls, end.batch)
    decreases |steps|
  {
    if steps == [] {
      calls := [];
    } else {
      var first := StepKeepsLink(start, steps[0]);
      var next := Next(start, steps[0]);
      var rest := RunsKeepLink(next, steps[1..], end);
      BatchRunsJoin(start.batch, first, next.batch, rest, end.batch);
      calls := first + rest;
    }
  }

  /** The call that a step makes is one the batch accepts from a thread outside it, so no step
      of the preparation is ever held up by the batch. */
  lemma CallIsAccepted(u: RecursiveUpload, step: P.Step, thread: nat)
    requires Linked(u) && P.CanTake(u.prepare, step) && thread !in u.batch.inside
    ensures Enabled(u, Prepare(step, thread))
  {
  }

  /** Everything that was begun has ended. */
  predicate AllEnded(u: RecursiveUpload) {
    && u.prepare.place == P.Over && u.batch.inside == map[]
    && (u.batch.dispatched ==> forall f: nat :: f < u.batch.selected ==> f in u.batch.terminal)
  }

  /** From the queueing of the preparation to the end, under any interleaving: one completion
      message at most, never before the last file; and once all has ended exactly one, except
      exactly when a teardown found the operation waiting and it prepared nevertheless. */
  lemma OneMessageForEveryUpload(selected: int, steps: seq<Step>, u: RecursiveUpload)
    requires IsRun(Begun(selected), steps, u)
    ensures u.batch.posts <= 1 && 0 <= u.batch.remaining
    ensures u.batch.posts == 1 ==> forall f: nat :: f < u.batch.selected ==> f in u.batch.counted
    ensures AllEnded(u) ==>
      u.batch.posts == if u.prepare.tornWaiting && P.Succeeded(u.prepare) then 0 else 1
  {
    var calls := RunsKeepLink(Begun(selected), steps, u);
    B.CompletionExactlyOnce(selected, calls, u.batch);
    if !u.batch.dispatched && !u.batch.unstarted {
      NothingYet(selected, calls, u.batch);
    }
  }

  // ---------- an undisturbed preparation uploads every file ----------

  ghost predicate Undisturbed(steps: seq<Step>) {
    forall i :: 0 <= i < |steps| && steps[i].Prepare? ==> !P.Disturbs(steps[i].step)
  }

  /** The preparation returned this result in the run. */
  ghost predicate Returned(steps: seq<Step>, result: int) {
    exists i :: 0 <= i < |steps| && steps[i].Prepare? && steps[i].step == P.CompletePerform(result)
  }

  predicate Completes(s: Step, file: nat) {
    s.Count? && s.action.FileComplete? && s.action.file == file
  }

  /** The operation of the file told the batch that it has ended. */
  ghost predicate EndedByItsOperation(steps: seq<Step>, file: nat) {
    exists i :: 0 <= i < |steps| && Completes(steps[i], file)
  }

  function PrepareSteps(steps: seq<Step>): seq<P.Step> {
    if steps == [] then []
    else (if steps[0].Prepare? then [steps[0].step] else []) + PrepareSteps(steps[1..])
  }

  lemma {:induction false} PrepareRun(start: RecursiveUpload, steps: seq<Step>, end: RecursiveUpload)
    requires IsRun(start, steps, end)
    ensures P.IsRun(start.prepare, PrepareSteps(steps), end.prepare)
    decreases |steps|
  {
    if steps != [] {
      var next := Next(start, steps[0]);
      PrepareRun(next, steps[1..], end);
      if steps[0].Prepare? {
        P.RunOfOne(start.prepare, steps[0].step, PrepareSteps(steps[1..]), end.prepare);
      } else {
        assert PrepareSteps(steps) == PrepareSteps(steps[1..]);
      }
    }
  }

  lemma {:induction false} PrepareStepsAre(steps: seq<Step>, s: P.Step)
    ensures s in PrepareSteps(steps) <==> exists i :: 0 <= i < |steps| && steps[i].Prepare? && steps[i].step == s
  {
    if steps != [] {
      var rest := steps[1..];
      PrepareStepsAre(rest, s);
      assert forall i :: 0 <= i < |rest| ==> rest[i] == steps[i + 1];
      assert forall i :: 1 <= i < |steps| ==> steps[i] == rest[i - 1];
    }
  }

  lemma {:induction false} TerminalByItsOperation(start: RecursiveUpload, steps: seq<Step>, end: RecursiveUpload, file: nat)
    requires IsRun(start, steps, end)
    ensures file in end.batch.terminal <==> file in start.batch.terminal || EndedByItsOperation(steps, file)
    decreases |steps|
  {
    if steps != [] {
      var s, rest := steps[0], steps[1..];
      TerminalStep(start, s, file);
      TerminalByItsOperation(Next(start, s), rest, end, file);
      assert forall i :: 0 <= i < |rest| ==> rest[i] == steps[i + 1];
      assert forall i :: 1 <= i < |steps| ==> steps[i] == rest[i - 1];
    }
  }

  lemma TerminalStep(u: RecursiveUpload, s: Step, file: nat)
    requires Enabled(u, s)
    ensures file in Next(u, s).batch.terminal <==> file in u.batch.terminal || Completes(s, file)
  {
    if s.Count? && s.action.Advance? {
      AdvanceTerminal(u.batch, s.action.thread);
    }
  }

  lemma AdvanceTerminal(b: B.Batch, t: nat)
    requires t in b.inside
    ensures B.Advanced(b, t).terminal == b.terminal
  {
  }

  /** When the preparation succeeds and nobody interferes, nothing is cancelled unstarted:
      once all has ended every selected file has ended by its own operation, and the one
      message has been posted after them. When it fails, no file was ever started. */
  lemma EveryFileIsUploaded(selected: int, steps: seq<Step>, u: RecursiveUpload)
    requires IsRun(Begun(selected), steps, u) && AllEnded(u) && Undisturbed(steps)
    ensures Returned(steps, 0) ==>
      && !u.batch.unstarted && u.batch.posts == 1
      && forall f: nat :: f < selected ==> EndedByItsOperation(steps, f)
    ensures Returned(steps, -1) ==>
      u.batch.unstarted && !u.batch.dispatched && u.batch.posts == 1
    ensures Returned(steps, 0) != Returned(steps, -1)
  {
    var calls := RunsKeepLink(Begun(selected), steps, u);
    OneMessageForEveryUpload(selected, steps, u);
    PrepareRun(Begun(selected), steps, u);
    DecidedByReturns(steps, u.prepare);
    B.FlagsStay(B.Initialized(selected), calls, u.batch);
    forall f: nat | u.batch.dispatched && f < selected ensures EndedByItsOperation(steps, f) {
      TerminalByItsOperation(Begun(selected), steps, u, f);
    }
  }

  lemma DecidedByReturns(steps: seq<Step>, p: P.Preparation)
    requires P.IsRun(P.FRESH, PrepareSteps(steps), p) && p.place == P.Over && Undisturbed(steps)
    ensures p.dispatched <==> Returned(steps, 0)
    ensures p.recorded <==> Returned(steps, -1)
    ensures p.dispatched != p.recorded && !p.tornWaiting
  {
    var prepare := PrepareSteps(steps);
    forall i | 0 <= i < |prepare| ensures !P.Disturbs(prepare[i]) {
      PrepareStepsAre(steps, prepare[i]);
    }
    PrepareStepsAre(steps, P.CompletePerform(0));
    PrepareStepsAre(steps, P.CompletePerform(-1));
    P.StepsDecide(prepare, p);
    P.RunsKeepInv(P.FRESH, prepare, p);
    P.CalmRun(P.FRESH, prepare, p);
  }

  lemma NothingYet(selected: int, calls: seq<B.Action>, b: B.Batch)
    requires B.IsRun(B.Initialized(selected), calls, b) && !b.dispatched && !b.unstarted
    ensures b.posts == 0
  {
    assert B.FreshInv(B.Initialized(selected));
    B.RunsKeepInv(B.Initialized(selected), calls, b);
  }
}
