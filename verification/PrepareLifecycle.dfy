/** The operation that prepares a recursive upload, and why its batch is dispatched or
    cancelled unstarted but never both. The transfer thread performs it step by step; the
    window thread handles its End message, aborts it, or tears the session down. */
module PrepareLifecycle {
  import opened ExecutionState

  /** Where the transfer thread is with the operation. */
  datatype Place =
    | Waiting | Active | Announced | Started | InBody | BodyDone | Ending | EndPosted | EndHandled | Over

  /** `result` is m_result; `recorded` is the once-flag of the cancellation; `message` says
      that an unhandled End message is in the window's queue. */
  datatype Preparation = Preparation(
    place: Place, word: Word, result: int, canceled: bool,
    message: bool, terminating: bool, torn: bool,
    filesDispatched: bool, dispatched: bool, recorded: bool, tornWaiting: bool)

  const FRESH := Preparation(Waiting, Idle, -1, false, false, false, false, false, false, false, false)

  datatype Step =
    | Activate
    | StartAcknowledged
    | StartExecution
    | BeginPerform
    | CompletePerform(result: int)
    | FinishExecution
    | PostEnd
    | EndAcknowledged
    | OnQueueTerminal
    | HandleEnd
    | Abort
    | Teardown
    | CancelWaiting
    | QueueStop

  predicate IsActive(p: Preparation) {
    p.place != Waiting && p.place != Over
  }

  predicate ShouldDispatch(result: int, canceled: bool) {
    result != -1 && !canceled
  }

  /** Up to the body of the operation, after it, and what the window thread does. */
  predicate IsOpening(s: Step) {
    s.Activate? || s.StartAcknowledged? || s.StartExecution? || s.BeginPerform?
  }

  predicate IsClosing(s: Step) {
    s.CompletePerform? || s.FinishExecution? || s.PostEnd? || s.EndAcknowledged? || s.OnQueueTerminal?
  }

  /** The Start notification waits for the window thread, which does not handle messages once
      it tears the session down, or for the end of notifications. */
  predicate CanOpen(p: Preparation, s: Step)
    requires IsOpening(s)
  {
    match s
    case Activate => p.place == Waiting
    case StartAcknowledged => p.place == Active && (p.terminating || !p.torn)
    case StartExecution => p.place == Announced
    case BeginPerform => p.place == Started
  }

  predicate CanClose(p: Preparation, s: Step)
    requires IsClosing(s)
  {
    match s
    case CompletePerform(r) => p.place == InBody && (r == -1 || r == 0)
    case FinishExecution => p.place == BodyDone
    case PostEnd => p.place == Ending
    case EndAcknowledged => p.place == EndPosted && p.terminating
    case OnQueueTerminal => p.place == EndHandled
  }

  predicate CanDirect(p: Preparation, s: Step)
    requires !IsOpening(s) && !IsClosing(s)
  {
    match s
    case HandleEnd => p.message
    case Abort => IsActive(p) && !p.torn
    case Teardown => p.place != Over && !p.torn
    case CancelWaiting => p.place == Waiting
    case QueueStop => IsActive(p) && p.torn
  }

  predicate CanTake(p: Preparation, s: Step) {
    if IsOpening(s) then CanOpen(p, s) else if IsClosing(s) then CanClose(p, s) else CanDirect(p, s)
  }

  /** CancelExecution followed by OnQueueCanceled, under the queue's monitor. */
  function Cancelled(p: Preparation, allowIdle: bool): Preparation {
    if CanCancel(p.word, allowIdle) then p.(word := Canceled, canceled := true) else p
  }

  function TornDown(p: Preparation): Preparation {
    if !IsActive(p) then p.(torn := true, tornWaiting := true)
    else
      var c := Cancelled(p, true);
      c.(torn := true, terminating := true, message := false,
         recorded := c.recorded || !c.filesDispatched)
  }

  /** The window dispatches the files of a prepared batch, or, when the session has stopped,
      cancels them unstarted; then it marks them dispatched. */
  function EndHandledBy(p: Preparation): Preparation {
    var q := p.(message := false, place := if p.place == EndPosted then EndHandled else p.place);
    if !ShouldDispatch(p.result, p.canceled) then q
    else if !p.torn then q.(dispatched := true, filesDispatched := true)
    else q.(recorded := true, filesDispatched := true)
  }

  function Opened(p: Preparation, s: Step): (q: Preparation)
    requires IsOpening(s)
    ensures q.torn == p.torn && q.tornWaiting == p.tornWaiting && q.terminating == p.terminating
    ensures q.dispatched == p.dispatched && q.recorded == p.recorded && q.result == p.result
  {
    match s
    case Activate => p.(place := Active, word := Idle)
    case StartAcknowledged => p.(place := Announced)
    case StartExecution =>
      if p.word == Idle then p.(word := Starting, place := Started) else p.(canceled := true, place := Ending)
    case BeginPerform =>
      if CanBegin(p.word) then p.(word := Running, place := InBody) else p.(place := Ending)
  }

  function Closed(p: Preparation, s: Step): (q: Preparation)
    requires IsClosing(s)
    ensures q.torn == p.torn && q.tornWaiting == p.tornWaiting && q.terminating == p.terminating
    ensures q.dispatched == p.dispatched && (p.recorded ==> q.recorded)
    ensures !s.CompletePerform? ==> q.result == p.result
  {
    match s
    case CompletePerform(r) => p.(result := r, place := BodyDone)
    case FinishExecution => p.(place := Ending, word := if p.word == Running then Finished else p.word)
    case PostEnd => if p.terminating then p.(place := EndHandled) else p.(place := EndPosted, message := true)
    case EndAcknowledged => p.(place := EndHandled)
    case OnQueueTerminal =>
      p.(place := Over, recorded := p.recorded || !ShouldDispatch(p.result, p.canceled))
  }

  function Directed(p: Preparation, s: Step): (q: Preparation)
    requires !IsOpening(s) && !IsClosing(s)
    ensures (p.dispatched ==> q.dispatched) && (p.recorded ==> q.recorded) && q.result == p.result
    ensures p.torn ==> q.torn && (s.Teardown? || q.tornWaiting == p.tornWaiting)
  {
    match s
    case HandleEnd => EndHandledBy(p)
    case Abort => Cancelled(p, false)
    case Teardown => TornDown(p)
    case CancelWaiting => p.(place := Over, canceled := true, recorded := true)
    case QueueStop => p.(terminating := true, message := false)
  }

  function Taken(p: Preparation, s: Step): Preparation
    requires CanTake(p, s)
  {
    if IsOpening(s) then Opened(p, s) else if IsClosing(s) then Closed(p, s) else Directed(p, s)
  }

  ghost predicate IsRun(start: Preparation, steps: seq<Step>, end: Preparation)
    decreases |steps|
  {
    if steps == [] then end == start
    else CanTake(start, steps[0]) && IsRun(Taken(start, steps[0]), steps[1..], end)
  }

  predicate BeforeBody(p: Preparation) {
    p.place == Waiting || p.place == Active || p.place == Announced || p.place == Started
  }

  predicate AfterBody(p: Preparation) {
    p.place == Ending || p.place == EndPosted || p.place == EndHandled || p.place == Over
  }

  predicate Succeeded(p: Preparation) {
    ShouldDispatch(p.result, p.canceled)
  }

  /** The word and the result follow the thread. */
  ghost predicate WordOk(p: Preparation) {
    && (p.result == -1 || p.result == 0)
    && (BeforeBody(p) || p.place == InBody ==> p.result == -1)
    && (p.word == Canceled && p.place != Waiting ==> p.canceled)
    && (p.place == Active || p.place == Announced ==> p.word == Idle || p.word == Canceled)
    && (p.place == Started ==> p.word == Starting || p.word == Canceled)
    && (p.place == InBody || p.place == BodyDone ==> p.word == Running || p.word == Canceled)
    && (AfterBody(p) && Succeeded(p) ==> p.word == Finished)
  }

  /** Who has been told what, and by whom. */
  ghost predicate TeardownOk(p: Preparation) {
    && (p.message ==> p.place == EndPosted && !p.terminating && !p.torn)
    && (p.place == EndPosted ==> p.message || p.terminating)
    && (p.tornWaiting ==> p.torn)
    && (p.torn ==> p.tornWaiting || p.terminating)
    && (p.terminating ==> p.torn)
    && (p.tornWaiting && !p.terminating ==> p.place == Waiting || p.place == Active || p.place == Over)
    && (p.place == Waiting && !p.torn ==> p == FRESH)
  }

  /** A batch goes one way, and the ways are tied to what has happened. */
  ghost predicate WaysOk(p: Preparation) {
    && !(p.dispatched && p.recorded)
    && (p.filesDispatched == p.dispatched)
    && (p.dispatched ==> (p.place == EndHandled || p.place == Over) && Succeeded(p) && !p.tornWaiting)
    && (p.terminating && !p.tornWaiting ==> p.dispatched || p.recorded)
    && (p.recorded && p.place != Over ==> p.terminating && !p.tornWaiting)
    && (p.place == EndHandled ==> p.dispatched || p.terminating || !Succeeded(p))
    && (p.place == Over ==> (p.dispatched || p.recorded <==> !(p.tornWaiting && Succeeded(p))))
  }

  ghost predicate Inv(p: Preparation) {
    WordOk(p) && TeardownOk(p) && WaysOk(p)
  }

  lemma StepKeepsInv(p: Preparation, s: Step)
    requires Inv(p) && CanTake(p, s)
    ensures Inv(Taken(p, s))
  {
    if IsOpening(s) {
      OpeningKeepsWord(p, s);
      OpeningKeepsTeardown(p, s);
      OpeningKeepsWays(p, s);
    } else if IsClosing(s) {
      ClosingKeepsWord(p, s);
      ClosingKeepsTeardown(p, s);
      ClosingKeepsWays(p, s);
    } else {
      DirectingKeepsWord(p, s);
      DirectingKeepsTeardown(p, s);
      DirectingKeepsWays(p, s);
    }
  }

  lemma OpeningKeepsWord(p: Preparation, s: Step)
    requires WordOk(p) && TeardownOk(p) && IsOpening(s) && CanOpen(p, s)
    ensures WordOk(Opened(p, s))
  {
    match s
    case Activate =>
    case StartAcknowledged =>
    case StartExecution =>
    case BeginPerform =>
  }

  lemma ClosingKeepsWord(p: Preparation, s: Step)
    requires WordOk(p) && TeardownOk(p) && IsClosing(s) && CanClose(p, s)
    ensures WordOk(Closed(p, s))
  {
    match s
    case CompletePerform(_) =>
    case FinishExecution =>
    case PostEnd =>
    case EndAcknowledged =>
    case OnQueueTerminal =>
  }

  lemma DirectingKeepsWord(p: Preparation, s: Step)
    requires WordOk(p) && TeardownOk(p) && !IsOpening(s) && !IsClosing(s) && CanDirect(p, s)
    ensures WordOk(Directed(p, s))
  {
  }

  lemma OpeningKeepsTeardown(p: Preparation, s: Step)
    requires TeardownOk(p) && IsOpening(s) && CanOpen(p, s)
    ensures TeardownOk(Opened(p, s))
  {
  }

  lemma ClosingKeepsTeardown(p: Preparation, s: Step)
    requires TeardownOk(p) && IsClosing(s) && CanClose(p, s)
    ensures TeardownOk(Closed(p, s))
  {
  }

  lemma DirectingKeepsTeardown(p: Preparation, s: Step)
    requires TeardownOk(p) && !IsOpening(s) && !IsClosing(s) && CanDirect(p, s)
    ensures TeardownOk(Directed(p, s))
  {
  }

  lemma OpeningKeepsWays(p: Preparation, s: Step)
    requires WordOk(p) && TeardownOk(p) && WaysOk(p) && IsOpening(s) && CanOpen(p, s)
    ensures WaysOk(Opened(p, s))
  {
  }

  lemma ClosingKeepsWays(p: Preparation, s: Step)
    requires WordOk(p) && TeardownOk(p) && WaysOk(p) && IsClosing(s) && CanClose(p, s)
    ensures WaysOk(Closed(p, s))
  {
  }

  lemma DirectingKeepsWays(p: Preparation, s: Step)
    requires WordOk(p) && TeardownOk(p) && WaysOk(p) && !IsOpening(s) && !IsClosing(s) && CanDirect(p, s)
    ensures WaysOk(Directed(p, s))
  {
  }

  lemma {:induction false} RunsKeepInv(start: Preparation, steps: seq<Step>, end: Preparation)
    requires Inv(start) && IsRun(start, steps, end)
    ensures Inv(end)
    decreases |steps|
  {
    if steps != [] {
      StepKeepsInv(start, steps[0]);
      RunsKeepInv(Taken(start, steps[0]), steps[1..], end);
    }
  }

  /** However the two threads interleave, the batch is never both dispatched and cancelled
      unstarted, and once the operation is over it is one of the two unless a teardown found
      the operation waiting and the preparation nevertheless succeeded. It is dispatched only
      if its preparation finished before any cancel could succeed. */
  lemma DispatchedOrCancelled(steps: seq<Step>, p: Preparation)
    requires IsRun(FRESH, steps, p)
    ensures !(p.dispatched && p.recorded)
    ensures p.place == Over ==> (p.dispatched || p.recorded <==> !(p.tornWaiting && Succeeded(p)))
    ensures p.dispatched ==> p.word == Finished && p.result == 0 && !p.canceled
  {
    RunsKeepInv(FRESH, steps, p);
  }

  // ---------- what the steps of a run decide ----------

  /** The steps by which somebody interferes: the user's abort, a cancel of the waiting
      operation, and the end of the session. */
  predicate Disturbs(s: Step) {
    s.Abort? || s.Teardown? || s.CancelWaiting?
  }

  ghost predicate Undisturbed(steps: seq<Step>) {
    forall i :: 0 <= i < |steps| ==> !Disturbs(steps[i])
  }

  predicate PastBody(p: Preparation) {
    p.place == BodyDone || AfterBody(p)
  }

  /** The state of an operation that nobody has disturbed. */
  ghost predicate Calm(p: Preparation) {
    && !p.torn && !p.canceled && !p.terminating && !p.tornWaiting
    && (p.place != Waiting ==> p.word != Canceled)
    && (p.dispatched <==> (p.place == EndHandled || p.place == Over) && p.result == 0)
    && (p.recorded <==> p.place == Over && p.result == -1)
  }

  lemma CalmStep(p: Preparation, s: Step)
    requires Inv(p) && Calm(p) && CanTake(p, s) && !Disturbs(s)
    ensures Calm(Taken(p, s))
    ensures PastBody(Taken(p, s)) <==> PastBody(p) || s.CompletePerform?
  {
    if IsOpening(s) {
      CalmOpening(p, s);
    } else if IsClosing(s) {
      CalmClosing(p, s);
    } else {
      assert s.HandleEnd?;
    }
  }

  lemma CalmOpening(p: Preparation, s: Step)
    requires Inv(p) && Calm(p) && IsOpening(s) && CanOpen(p, s)
    ensures Calm(Opened(p, s)) && !PastBody(Opened(p, s)) && !PastBody(p)
  {
    match s
    case Activate =>
    case StartAcknowledged =>
    case StartExecution =>
    case BeginPerform =>
  }

  lemma CalmClosing(p: Preparation, s: Step)
    requires Inv(p) && Calm(p) && IsClosing(s) && CanClose(p, s)
    ensures Calm(Closed(p, s)) && PastBody(Closed(p, s)) && (PastBody(p) <==> !s.CompletePerform?)
  {
    match s
    case CompletePerform(_) =>
    case FinishExecution =>
    case PostEnd =>
    case EndAcknowledged =>
    case OnQueueTerminal =>
  }

  /** The result is what the body returned, and it returns once. */
  lemma {:induction false} CalmRun(start: Preparation, steps: seq<Step>, end: Preparation)
    requires Inv(start) && Calm(start) && IsRun(start, steps, end) && Undisturbed(steps)
    ensures Inv(end) && Calm(end) && (PastBody(start) ==> PastBody(end) && end.result == start.result)
    ensures forall r :: CompletePerform(r) in steps <==> !PastBody(start) && PastBody(end) && end.result == r
    decreases |steps|
  {
    if steps != [] {
      var s, rest := steps[0], steps[1..];
      StepKeepsInv(start, s);
      CalmStep(start, s);
      ResultStep(start, s);
      CalmRun(Taken(start, s), rest, end);
      assert steps == [s] + rest;
    }
  }

  lemma ResultStep(p: Preparation, s: Step)
    requires CanTake(p, s)
    ensures Taken(p, s).result == if s.CompletePerform? then s.result else p.result
    ensures s.CompletePerform? ==> !PastBody(p)
  {
    if s.CompletePerform? {
      assert IsClosing(s) && p.place == InBody;
    }
  }

  lemma {:induction false} ResultIsTheBodys(start: Preparation, steps: seq<Step>, end: Preparation)
    requires IsRun(start, steps, end)
    ensures end.result == start.result || CompletePerform(end.result) in steps
    decreases |steps|
  {
    if steps != [] {
      ResultStep(start, steps[0]);
      ResultIsTheBodys(Taken(start, steps[0]), steps[1..], end);
    }
  }

  /** A batch is dispatched only after its preparation succeeded. It is cancelled unstarted
      only when its preparation failed or somebody interfered. Without interference the
      dispatch follows success and the cancellation follows failure. */
  lemma StepsDecide(steps: seq<Step>, p: Preparation)
    requires IsRun(FRESH, steps, p)
    ensures p.dispatched ==> CompletePerform(0) in steps
    ensures p.recorded ==> CompletePerform(-1) in steps || !Undisturbed(steps)
    ensures p.place == Over && Undisturbed(steps) ==>
      && (p.dispatched <==> CompletePerform(0) in steps) && (p.recorded <==> CompletePerform(-1) in steps)
      && p.dispatched != p.recorded
  {
    RunsKeepInv(FRESH, steps, p);
    ResultIsTheBodys(FRESH, steps, p);
    if Undisturbed(steps) {
      CalmRun(FRESH, steps, p);
    }
  }

  /** How far the operation is from its end. */
  function Remaining(p: Preparation): nat {
    2 * PlacesLeft(p.place) + if p.terminating then 0 else 1
  }

  function PlacesLeft(place: Place): nat {
    match place
    case Waiting => 9
    case Active => 8
    case Announced => 7
    case Started => 6
    case InBody => 5
    case BodyDone => 4
    case Ending => 3
    case EndPosted => 2
    case EndHandled => 1
    case Over => 0
  }

  lemma OpeningGoesOn(p: Preparation, s: Step)
    requires IsOpening(s) && CanOpen(p, s)
    ensures Remaining(Opened(p, s)) < Remaining(p)
  {
    var q := Opened(p, s);
    match s
    case Activate => assert q.place == Active;
    case StartAcknowledged => assert q.place == Announced;
    case StartExecution => assert q.place == Started || q.place == Ending;
    case BeginPerform => assert q.place == InBody || q.place == Ending;
  }

  lemma ClosingGoesOn(p: Preparation, s: Step)
    requires IsClosing(s) && CanClose(p, s)
    ensures Remaining(Closed(p, s)) < Remaining(p)
  {
    match s
    case CompletePerform(_) =>
    case FinishExecution =>
    case PostEnd =>
    case EndAcknowledged =>
    case OnQueueTerminal =>
  }

  /** What one of the two threads can do next. */
  function NextStep(p: Preparation): Step {
    match p.place
    case Waiting => Activate
    case Active => if p.terminating || !p.torn then StartAcknowledged else QueueStop
    case Announced => StartExecution
    case Started => BeginPerform
    case InBody => CompletePerform(0)
    case BodyDone => FinishExecution
    case Ending => PostEnd
    case EndPosted => if p.message then HandleEnd else EndAcknowledged
    case EndHandled => OnQueueTerminal
    case Over => HandleEnd
  }

  /** The two threads always bring the operation nearer to its end, without anybody's
      interference. */
  lemma GoesOn(steps: seq<Step>, p: Preparation) returns (s: Step)
    requires IsRun(FRESH, steps, p) && p.place != Over
    ensures CanTake(p, s) && !Disturbs(s) && Remaining(Taken(p, s)) < Remaining(p)
  {
    RunsKeepInv(FRESH, steps, p);
    s := NextStep(p);
    if IsOpening(s) {
      OpeningGoesOn(p, s);
    } else if IsClosing(s) {
      ClosingGoesOn(p, s);
    }
  }

  // ---------- what a teardown does to the batch ----------

  /** However the run goes on, the batch ends dispatched or cancelled unstarted. */
  ghost predicate NeverForgotten(p: Preparation) {
    forall after, q :: IsRun(p, after, q) && q.place == Over ==> q.dispatched || q.recorded
  }

  lemma {:induction false} StaysTorn(p: Preparation, after: seq<Step>, q: Preparation)
    requires IsRun(p, after, q) && p.torn
    ensures q.torn && q.tornWaiting == p.tornWaiting
    decreases |after|
  {
    if after != [] {
      StaysTorn(Taken(p, after[0]), after[1..], q);
    }
  }

  /** A teardown that finds the operation still waiting does not keep the thread from
      performing it: the thread is released from its Start notification when the queue stops,
      and then prepares a batch that nobody dispatches or cancels. */
  lemma ForgottenWhenWaiting() returns (after: seq<Step>, q: Preparation)
    ensures IsRun(Taken(FRESH, Teardown), after, q)
    ensures q.place == Over && !q.dispatched && !q.recorded
  {
    after := [Activate, QueueStop, StartAcknowledged, StartExecution, BeginPerform];
    var body := Preparation(InBody, Running, -1, false, false, true, true, false, false, false, true);
    assert IsRun(Taken(FRESH, Teardown), after, body) by {
      FirstStepsOfForgotten(body);
    }
    q := body.(place := Over, word := Finished, result := 0);
    var rest := [CompletePerform(0), FinishExecution, PostEnd, OnQueueTerminal];
    LastStepsOfForgotten(body, q);
    RunsJoin(Taken(FRESH, Teardown), after, body, rest, q);
    after := after + rest;
  }

  lemma FirstStepsOfForgotten(body: Preparation)
    requires body == Preparation(InBody, Running, -1, false, false, true, true, false, false, false, true)
    ensures IsRun(Taken(FRESH, Teardown), [Activate, QueueStop, StartAcknowledged, StartExecution, BeginPerform], body)
  {
    var p := Taken(FRESH, Teardown);
    RunOfOne(p, Activate, [QueueStop, StartAcknowledged, StartExecution, BeginPerform], body);
    p := Taken(p, Activate);
    RunOfOne(p, QueueStop, [StartAcknowledged, StartExecution, BeginPerform], body);
    ReleasedReachesBody(Taken(p, QueueStop), body);
  }

  lemma ReleasedReachesBody(released: Preparation, body: Preparation)
    requires body == Preparation(InBody, Running, -1, false, false, true, true, false, false, false, true)
    requires released == body.(place := Active, word := Idle)
    ensures IsRun(released, [StartAcknowledged, StartExecution, BeginPerform], body)
  {
    var p := released;
    RunOfOne(p, StartAcknowledged, [StartExecution, BeginPerform], body);
    p := Taken(p, StartAcknowledged);
    RunOfOne(p, StartExecution, [BeginPerform], body);
    p := Taken(p, StartExecution);
    RunOfOne(p, BeginPerform, [], body);
  }

  lemma LastStepsOfForgotten(body: Preparation, q: Preparation)
    requires body == Preparation(InBody, Running, -1, false, false, true, true, false, false, false, true)
    requires q == body.(place := Over, word := Finished, result := 0)
    ensures IsRun(body, [CompletePerform(0), FinishExecution, PostEnd, OnQueueTerminal], q)
  {
    RunOfOne(body, CompletePerform(0), [FinishExecution, PostEnd, OnQueueTerminal], q);
    var p := Taken(body, CompletePerform(0));
    RunOfOne(p, FinishExecution, [PostEnd, OnQueueTerminal], q);
    p := Taken(p, FinishExecution);
    RunOfOne(p, PostEnd, [OnQueueTerminal], q);
    p := Taken(p, PostEnd);
    RunOfOne(p, OnQueueTerminal, [], q);
  }

  lemma RunOfOne(p: Preparation, s: Step, rest: seq<Step>, q: Preparation)
    requires CanTake(p, s)
    ensures IsRun(p, [s] + rest, q) <==> IsRun(Taken(p, s), rest, q)
  {
    assert ([s] + rest)[1..] == rest;
  }

  lemma {:induction false} RunsJoin(p: Preparation, steps: seq<Step>, q: Preparation, more: seq<Step>, r: Preparation)
    requires IsRun(p, steps, q) && IsRun(q, more, r)
    ensures IsRun(p, steps + more, r)
    decreases |steps|
  {
    if steps == [] {
      assert steps + more == more;
    } else {
      assert (steps + more)[1..] == steps[1..] + more;
      RunsJoin(Taken(p, steps[0]), steps[1..], q, more, r);
    }
  }

  /** A teardown is safe for the batch exactly when it does not find the operation waiting. */
  lemma TeardownKeepsTheBatch(steps: seq<Step>, p: Preparation)
    requires IsRun(FRESH, steps, p) && CanTake(p, Teardown)
    ensures NeverForgotten(Taken(p, Teardown)) <==> p.place != Waiting
  {
    RunsKeepInv(FRESH, steps, p);
    StepKeepsInv(p, Teardown);
    var torn := Taken(p, Teardown);
    if p.place != Waiting {
      forall after, q | IsRun(torn, after, q) && q.place == Over ensures q.dispatched || q.recorded {
        RunsKeepInv(torn, after, q);
        StaysTorn(torn, after, q);
      }
    } else {
      var after, q := ForgottenWhenWaiting();
    }
  }
}
