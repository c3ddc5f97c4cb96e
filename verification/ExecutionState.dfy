/** The execution state of an operation: one word changed only by interlocked instructions.
    Each action is one instruction of one thread, in any interleaving of any threads. */
module ExecutionState {

  datatype Word = Idle | Starting | Running | Finished | Canceled

  function Rank(w: Word): nat {
    match w
    case Idle => 0
    case Starting => 1
    case Running => 2
    case Finished => 3
    case Canceled => 4
  }

  predicate CanBegin(w: Word) {
    w == Starting || w == Idle
  }

  predicate CanCancel(w: Word, allowIdle: bool) {
    w == Starting || w == Running || (allowIdle && w == Idle)
  }

  /** A thread inside a retry loop: the value it saw and how often its exchange has failed. */
  datatype Attempt = Beginning(seen: Word, failed: nat) | Cancelling(allowIdle: bool, seen: Word, failed: nat)

  /** The counts start again at every PrepareExecution: bodies begun, cancels that succeeded,
      and those of them that reported wasRunning. `beginFailures` and `cancelFailures` are the
      most exchanges that one loop has failed, the last one before it ended included. */
  datatype State = State(
    word: Word, inside: map<nat, Attempt>,
    begun: nat, cancels: nat, runningCancels: nat,
    beginFailures: nat, cancelFailures: nat)

  datatype Action =
    | Prepare
    | Start
    | Finish
    | ReadToBegin(thread: nat)
    | ReadToCancel(thread: nat, allowIdle: bool)
    | Exchange(thread: nat)

  predicate Enabled(s: State, a: Action) {
    match a
    case ReadToBegin(t) => t !in s.inside
    case ReadToCancel(t, _) => t !in s.inside
    case Exchange(t) => t in s.inside
    case _ => true
  }

  /** The initial read: a thread whose loop condition already fails returns at once. */
  function Entered(s: State, t: nat, attempt: Attempt, goesOn: bool): State {
    if goesOn then s.(inside := s.inside[t := attempt]) else s
  }

  function Retried(s: State, t: nat, attempt: Attempt, goesOn: bool): State {
    if goesOn then s.(inside := s.inside[t := attempt]) else s.(inside := s.inside - {t})
  }

  function Most(a: nat, b: nat): nat {
    if a < b then b else a
  }

  function Next(s: State, a: Action): State
    requires Enabled(s, a)
  {
    match a
    case Prepare => State(Idle, s.inside, 0, 0, 0, 0, 0)
    case Start => if s.word == Idle then s.(word := Starting) else s
    case Finish => if s.word == Running then s.(word := Finished) else s
    case ReadToBegin(t) => Entered(s, t, Beginning(s.word, 0), CanBegin(s.word))
    case ReadToCancel(t, allowIdle) => Entered(s, t, Cancelling(allowIdle, s.word, 0), CanCancel(s.word, allowIdle))
    case Exchange(t) =>
      match s.inside[t]
      case Beginning(seen, failed) =>
        if s.word == seen then s.(word := Running, begun := s.begun + 1, inside := s.inside - {t})
        else
          Retried(s.(beginFailures := Most(s.beginFailures, failed + 1)), t,
                  Beginning(s.word, failed + 1), CanBegin(s.word))
      case Cancelling(allowIdle, seen, failed) =>
        if s.word == seen then
          s.(word := Canceled, inside := s.inside - {t}, cancels := s.cancels + 1,
             runningCancels := s.runningCancels + if seen == Running then 1 else 0)
        else
          Retried(s.(cancelFailures := Most(s.cancelFailures, failed + 1)), t,
                  Cancelling(allowIdle, s.word, failed + 1), CanCancel(s.word, allowIdle))
  }

  const INITIAL := State(Idle, map[], 0, 0, 0, 0, 0)

  ghost predicate IsRun(start: State, actions: seq<Action>, end: State)
    decreases |actions|
  {
    if actions == [] then end == start
    else Enabled(start, actions[0]) && IsRun(Next(start, actions[0]), actions[1..], end)
  }

  // ---------- what the word says about the past ----------

  /** A thread goes on only from a value its loop accepts. */
  ghost predicate AttemptsOk(s: State) {
    forall t :: t in s.inside ==>
      if s.inside[t].Beginning? then CanBegin(s.inside[t].seen)
      else CanCancel(s.inside[t].seen, s.inside[t].allowIdle)
  }

  ghost predicate Inv(s: State) {
    && AttemptsOk(s)
    && s.begun == s.runningCancels + (if s.word == Running || s.word == Finished then 1 else 0)
    && s.runningCancels <= s.cancels == (if s.word == Canceled then 1 else 0)
  }

  lemma StepKeepsInv(s: State, a: Action)
    requires Inv(s) && Enabled(s, a)
    ensures Inv(Next(s, a))
  {
  }

  lemma {:induction false} RunsKeepInv(start: State, actions: seq<Action>, end: State)
    requires Inv(start) && IsRun(start, actions, end)
    ensures Inv(end)
    decreases |actions|
  {
    if actions != [] {
      StepKeepsInv(start, actions[0]);
      RunsKeepInv(Next(start, actions[0]), actions[1..], end);
    }
  }

  ghost predicate Unprepared(actions: seq<Action>) {
    forall i :: 0 <= i < |actions| ==> actions[i] != Prepare
  }

  /** Between preparations the rank only grows, so Finished and Canceled are final: after
      either, no body begins and no cancel succeeds. */
  lemma {:induction false} RankGrows(start: State, actions: seq<Action>, end: State)
    requires Inv(start) && IsRun(start, actions, end) && Unprepared(actions)
    ensures Rank(start.word) <= Rank(end.word)
    ensures start.word == Finished || start.word == Canceled ==>
      && end.word == start.word && end.begun == start.begun
      && end.cancels == start.cancels && end.runningCancels == start.runningCancels
    decreases |actions|
  {
    if actions != [] {
      var next := Next(start, actions[0]);
      StepKeepsInv(start, actions[0]);
      assert Rank(start.word) <= Rank(next.word);
      assert forall i :: 0 <= i < |actions| - 1 ==> actions[1..][i] == actions[i + 1];
      RankGrows(next, actions[1..], end);
    }
  }

  /** Per preparation the body begins at most once and at most one cancel succeeds; that
      cancel reports wasRunning exactly when the body had begun; and once it has reported
      otherwise the body never begins until the next preparation. */
  lemma BodyAndCancel(before: seq<Action>, s: State, after: seq<Action>, end: State)
    requires IsRun(INITIAL, before, s)
    requires IsRun(s, after, end) && Unprepared(after)
    ensures s.begun <= 1 && s.cancels <= 1
    ensures s.cancels == 1 ==> (s.runningCancels == 1 <==> s.begun == 1)
    ensures s.cancels == 1 ==> end.cancels == 1 && end.runningCancels == s.runningCancels && end.begun == s.begun
    ensures s.word == Finished ==> end.cancels == 0 && end.begun == 1
  {
    RunsKeepInv(INITIAL, before, s);
    RankGrows(s, after, end);
    RunsKeepInv(s, after, end);
  }

  // ---------- a call alone ----------

  /** A begin, or a cancel, that no other thread comes between. */
  function BegunAlone(s: State, t: nat): State
    requires t !in s.inside
  {
    var read := Next(s, ReadToBegin(t));
    if t in read.inside then Next(read, Exchange(t)) else read
  }

  function CancelledAlone(s: State, t: nat, allowIdle: bool): State
    requires t !in s.inside
  {
    var read := Next(s, ReadToCancel(t, allowIdle));
    if t in read.inside then Next(read, Exchange(t)) else read
  }

  /** Alone, a begin succeeds exactly before the body, and a cancel exactly before the end;
      otherwise nothing changes. */
  lemma AloneNothingIsLost(s: State, t: nat, allowIdle: bool)
    requires t !in s.inside
    ensures BegunAlone(s, t) ==
      if s.word in {Idle, Starting} then s.(word := Running, begun := s.begun + 1) else s
    ensures CancelledAlone(s, t, allowIdle) ==
      if s.word in {Starting, Running} || (allowIdle && s.word == Idle)
      then s.(word := Canceled, cancels := s.cancels + 1,
              runningCancels := s.runningCancels + if s.word == Running then 1 else 0)
      else s
  {
    assert s.inside[t := Beginning(s.word, 0)] - {t} == s.inside;
    assert s.inside[t := Cancelling(allowIdle, s.word, 0)] - {t} == s.inside;
  }

  /** Left alone, an operation is started, begun once and finished. */
  lemma CourseOfAnOperation(s: State, t: nat)
    requires t !in s.inside
    ensures var end := Next(BegunAlone(Next(Next(s, Prepare), Start), t), Finish);
      end == s.(word := Finished, begun := 1, cancels := 0, runningCancels := 0, beginFailures := 0, cancelFailures := 0)
  {
    AloneNothingIsLost(Next(Next(s, Prepare), Start), t, false);
  }

  // ---------- the retry loops end ----------

  /** What a thread saw is not above the word, and every failure has raised it. */
  ghost predicate Climbing(s: State) {
    && s.beginFailures <= 2 && s.cancelFailures <= 3
    && forall t :: t in s.inside ==>
      s.inside[t].failed <= Rank(s.inside[t].seen) && Rank(s.inside[t].seen) <= Rank(s.word)
  }

  lemma ClimbingStep(s: State, a: Action)
    requires Inv(s) && Climbing(s) && Enabled(s, a) && a != Prepare
    ensures Climbing(Next(s, a))
  {
    if a.Exchange? {
      ExchangeClimbs(s, a.thread);
    }
  }

  lemma ExchangeClimbs(s: State, t: nat)
    requires AttemptsOk(s) && Climbing(s) && t in s.inside
    ensures Climbing(Next(s, Exchange(t)))
  {
    assert s.inside[t].failed <= Rank(s.inside[t].seen) <= Rank(s.word);
    match s.inside[t]
    case Beginning(seen, _) =>
      assert CanBegin(seen);
    case Cancelling(allowIdle, seen, _) =>
      assert CanCancel(seen, allowIdle);
  }

  /** Each failed exchange has seen a higher value, so a begin loop fails at most twice and a
      cancel loop at most three times before it ends. */
  lemma {:induction false} RetriesAreBounded(start: State, actions: seq<Action>, end: State)
    requires Inv(start) && Climbing(start) && IsRun(start, actions, end) && Unprepared(actions)
    ensures Climbing(end) && end.beginFailures <= 2 && end.cancelFailures <= 3
    decreases |actions|
  {
    if actions != [] {
      StepKeepsInv(start, actions[0]);
      ClimbingStep(start, actions[0]);
      assert forall i :: 0 <= i < |actions| - 1 ==> actions[1..][i] == actions[i + 1];
      RetriesAreBounded(Next(start, actions[0]), actions[1..], end);
    }
  }

  /** The bounds are reached: a cancel that may take Idle fails at Starting, at Running and at
      Finished; a begin fails at Starting and at a cancel. */
  lemma BoundsAreReached() returns (slowCancel: State, slowBegin: State)
    ensures IsRun(INITIAL, SLOW_CANCEL, slowCancel) && slowCancel.cancelFailures == 3
    ensures IsRun(INITIAL, SLOW_BEGIN, slowBegin) && slowBegin.beginFailures == 2
  {
    slowCancel := SlowCancel();
    slowBegin := SlowBegin();
  }

  lemma SlowCancel() returns (end: State)
    ensures IsRun(INITIAL, SLOW_CANCEL, end) && end.cancelFailures == 3
  {
    var s := Next(INITIAL, ReadToCancel(1, true));
    s := Next(Next(s, Start), Exchange(1));
    s := Next(s, ReadToBegin(2));
    s := Next(Next(s, Exchange(2)), Exchange(1));
    end := Next(Next(s, Finish), Exchange(1));
  }

  lemma SlowBegin() returns (end: State)
    ensures IsRun(INITIAL, SLOW_BEGIN, end) && end.beginFailures == 2
  {
    var s := Next(Next(Next(INITIAL, ReadToBegin(1)), Start), Exchange(1));
    s := Next(s, ReadToCancel(2, false));
    end := Next(Next(s, Exchange(2)), Exchange(1));
  }

  const SLOW_CANCEL: seq<Action> :=
    [ReadToCancel(1, true), Start, Exchange(1), ReadToBegin(2), Exchange(2), Exchange(1), Finish, Exchange(1)]

  const SLOW_BEGIN: seq<Action> :=
    [ReadToBegin(1), Start, Exchange(1), ReadToCancel(2, false), Exchange(2), Exchange(1)]

  // ---------- the loops themselves ----------

  /** The methods as written, with every other thread free to act between two instructions.
      Between preparations other threads only raise the word. */
  class QueueExecution {
    var word: Word

    constructor ()
      ensures word == Idle
    {
      word := Idle;
    }

    method OtherThreads()
      modifies this
      ensures Rank(old(word)) <= Rank(word)
    {
      var w: Word :| Rank(word) <= Rank(w);
      word := w;
    }

    method CompareExchange(value: Word, expected: Word) returns (previous: Word)
      modifies this
      ensures previous == old(word)
      ensures word == if old(word) == expected then value else old(word)
    {
      previous := word;
      if word == expected {
        word := value;
      }
    }

    /** Ends however the others act; succeeds by its own exchange, from a value in which no
        body had begun, and fails when it has seen one in which it had or never will. */
    method BeginPerform() returns (begun: bool, ghost from: Word)
      modifies this
      ensures begun <==> from in {Idle, Starting}
      ensures begun ==> word == Running
      ensures Rank(old(word)) <= Rank(from) <= Rank(word)
    {
      var state := word;
      OtherThreads();
      while CanBegin(state)
        invariant Rank(old(word)) <= Rank(state) <= Rank(word)
        decreases Rank(Canceled) - Rank(state)
      {
        var previous := CompareExchange(Running, state);
        if previous == state {
          return true, state;
        }
        state := previous;
        OtherThreads();
      }
      begun, from := false, state;
    }

    /** Ends however the others act; fails when it has seen an execution that is over, or one
        that is not started while those are not to be cancelled. */
    method CancelExecution(allowIdle: bool) returns (canceled: bool, wasRunning: bool, ghost from: Word)
      modifies this
      ensures canceled <==> from in {Starting, Running} || (from == Idle && allowIdle)
      ensures canceled ==> word == Canceled
      ensures wasRunning <==> from == Running
      ensures Rank(old(word)) <= Rank(from) <= Rank(word)
    {
      wasRunning := false;
      var state := word;
      OtherThreads();
      while CanCancel(state, allowIdle)
        invariant Rank(old(word)) <= Rank(state) <= Rank(word)
        decreases Rank(Canceled) - Rank(state)
      {
        var previous := CompareExchange(Canceled, state);
        if previous != state {
          state := previous;
          OtherThreads();
          continue;
        }
        return true, state == Running, state;
      }
      canceled, from := false, state;
    }
  }
}
