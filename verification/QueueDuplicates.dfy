/** Why a transfer queue never performs one piece of work twice: what it admits, and what stays
    apart in it over every run. */
module QueueDuplicates {
  import opened Operations
  import opened TransferQueue
  import opened TransferQueueRuns

  ghost predicate AllDiffer(s: seq<Operation>) {
    forall i, j :: 0 <= i < j < |s| ==> !Equals(s[i], s[j])
  }

  /** An operation equal to the front may wait behind it once the front runs, if its kind
      compares running operations. */
  predicate AllowsTwin(q: Queue) {
    && q.ops != [] && q.current == Some(q.ops[0]) && ComparesRunning(q.ops[0].queueType)
    && (IsRunning(q.phase) || q.phase == Performed || q.phase == Ended || q.phase == Removing
        || q.phase == Leaving || q.phase == Exited)
  }

  /** The queue, and the operation that is about to be appended to it. */
  ghost function Line(r: Run): seq<Operation> {
    r.q.ops + if r.client.Adding? then [r.client.op] else []
  }

  ghost predicate Apart(q: Queue, line: seq<Operation>) {
    line != [] ==> AllDiffer(line[1..]) && (AllowsTwin(q) || AllDiffer(line))
  }

  lemma TailDiffers(s: seq<Operation>)
    requires AllDiffer(s) && s != []
    ensures AllDiffer(s[1..])
  {
  }

  lemma FrontDiffers(x: Operation, s: seq<Operation>)
    requires AllDiffer(s) && forall i :: 0 <= i < |s| ==> !Equals(x, s[i])
    ensures AllDiffer([x] + s)
  {
  }

  lemma {:induction false} KeptDiffers(s: seq<Operation>, suppress: bool)
    requires AllDiffer(s)
    ensures AllDiffer(Kept(s, suppress)) && forall x :: x in Kept(s, suppress) ==> x in s
  {
    if s != [] {
      TailDiffers(s);
      KeptDiffers(s[1..], suppress);
      forall i | 0 <= i < |Kept(s[1..], suppress)| ensures !Equals(s[0], Kept(s[1..], suppress)[i]) {
        assert Kept(s[1..], suppress)[i] in s[1..];
      }
      FrontDiffers(s[0], Kept(s[1..], suppress));
      assert s == [s[0]] + s[1..];
    }
  }

  lemma RemovedDiffers(s: seq<Operation>, k: nat)
    requires k < |s|
    ensures AllDiffer(s) ==> AllDiffer(s[..k] + s[k + 1..])
    ensures k > 0 && AllDiffer(s[1..]) ==> AllDiffer((s[..k] + s[k + 1..])[1..])
  {
    var t := s[..k] + s[k + 1..];
    assert forall i :: 0 <= i < |t| ==> t[i] == s[if i < k then i else i + 1];
    if k > 0 && AllDiffer(s[1..]) {
      assert forall i :: 0 < i < |s| ==> s[i] == s[1..][i - 1];
      assert forall i :: 0 <= i < |t[1..]| ==> t[1..][i] == t[i + 1];
    }
  }

  // ---------- one lemma for each kind of step ----------

  /** An operation is admitted when nothing equal is queued, or only the front that runs. */
  lemma AdmissionTells(q: Queue, op: Operation)
    requires Inv(q) && forall x :: multiset(q.ops)[x] <= 1
    ensures Admit(q, op) == Rejected <==> q.teardown || q.stopping
    ensures Admit(q, op) == Accepted ==> forall i :: 0 < i < |q.ops| ==> !Equals(q.ops[i], op)
    ensures Admit(q, op) == Accepted && q.ops != [] && Equals(q.ops[0], op) ==> AllowsTwin(q) && IsRunning(q.phase)
    ensures Admit(q, op) == Dropped ==> exists i :: 0 <= i < |q.ops| && Equals(op, q.ops[i])
  {
    if Admit(q, op) == Accepted {
      forall i | 0 <= i < |q.ops| && Equals(q.ops[i], op)
        ensures i == 0 && AllowsTwin(q) && IsRunning(q.phase)
      {
        assert !Duplicates(q, op, q.ops[i]);
        assert q.ops[i] == q.ops[0];
        if i > 0 {
          CountedTwice(q.ops, i);
        }
      }
    }
  }

  lemma CountedTwice(s: seq<Operation>, i: nat)
    requires 0 < i < |s| && s[i] == s[0]
    ensures multiset(s)[s[0]] >= 2
  {
    assert s == [s[0]] + s[1..];
    assert s[1..][i - 1] == s[0] && s[0] in multiset(s[1..]);
  }

  lemma CheckKeepsApart(r: Run, op: Operation)
    requires RunInv(r) && Enabled(r, AddCheck(op)) && Apart(r.q, Line(r))
    ensures var t := Next(r, AddCheck(op)); Apart(t.q, Line(t))
  {
    EachIsQueuedOnce(r);
    assert Line(r) == r.q.ops;
    LineAfterCheck(r, op);
    if Admit(r.q, op) == Accepted {
      AdmissionTells(r.q, op);
      OneMoreApart(r.q, op);
    }
  }

  lemma EachIsQueuedOnce(r: Run)
    requires RunInv(r)
    ensures forall x :: multiset(r.q.ops)[x] <= 1
  {
    forall x ensures multiset(r.q.ops)[x] <= 1 {
      assert Ledgers(r, x);
    }
  }

  lemma LineAfterCheck(r: Run, op: Operation)
    requires Enabled(r, AddCheck(op))
    ensures var t := Next(r, AddCheck(op));
      t.q == r.q && Line(t) == if Admit(r.q, op) == Accepted then r.q.ops + [op] else r.q.ops
  {
  }

  lemma OneMoreApart(q: Queue, op: Operation)
    requires Apart(q, q.ops)
    requires forall i :: 0 < i < |q.ops| ==> !Equals(q.ops[i], op)
    requires q.ops != [] && Equals(q.ops[0], op) ==> AllowsTwin(q)
    ensures Apart(q, q.ops + [op])
  {
    if q.ops != [] {
      assert (q.ops + [op])[1..] == q.ops[1..] + [op];
    }
  }

  /** What is left of a line, with its front or without. */
  lemma FrontGone(q: Queue, after: Queue, line: seq<Operation>)
    requires Apart(q, line) && line != []
    ensures Apart(after, line[1..])
  {
    if line[1..] != [] {
      TailDiffers(line[1..]);
    }
  }

  lemma ThreadKeepsApart(r: Run)
    requires RunInv(r) && Enabled(r, ThreadStep) && Apart(r.q, Line(r))
    ensures var t := Next(r, ThreadStep); Apart(t.q, Line(t))
  {
    var q, after := r.q, LoopNext(r.q);
    if q.phase == Removing {
      assert Line(Next(r, ThreadStep)) == Line(r)[1..];
      FrontGone(q, after, Line(r));
    } else {
      TwinStays(q);
      assert Line(Next(r, ThreadStep)) == Line(r);
      if q.ops == [] && Line(r) != [] {
        assert |Line(r)| == 1;
      }
    }
  }

  lemma TwinStays(q: Queue)
    requires Inv(q) && LoopEnabled(q) && q.phase != Removing
    ensures LoopNext(q).ops == q.ops && (AllowsTwin(q) ==> AllowsTwin(LoopNext(q)))
  {
    match q.phase
    case AtTop =>
    case Started =>
    case Running =>
    case Performing =>
    case Performed =>
    case Ended =>
    case Removing =>
    case Popped =>
    case Reported =>
    case Leaving =>
  }

  lemma LineAfterCancel(r: Run, op: Operation) returns (k: nat)
    requires Enabled(r, Cancel(op)) && CancelResult(r.q, op) == Canceled
    ensures k < |r.q.ops| && (r.q.performing ==> k > 0)
    ensures var t := Next(r, Cancel(op));
      t.q == r.q.(ops := r.q.ops[..k] + r.q.ops[k + 1..]) && Line(t) == t.q.ops
  {
    k := FirstIndexOf(r.q.ops, op);
  }

  lemma CancelKeepsApart(r: Run, op: Operation)
    requires Shape(r) && Enabled(r, Cancel(op)) && Apart(r.q, Line(r))
    ensures var t := Next(r, Cancel(op)); Apart(t.q, Line(t))
  {
    assert Line(r) == r.q.ops;
    if CancelResult(r.q, op) == Canceled {
      var k := LineAfterCancel(r, op);
      ErasedIsApart(r.q, Next(r, Cancel(op)).q, k);
    }
  }

  lemma ErasedIsApart(q: Queue, after: Queue, k: nat)
    requires k < |q.ops| && Apart(q, q.ops) && (q.performing ==> k > 0) && (AllowsTwin(q) ==> q.performing)
    requires after == q.(ops := q.ops[..k] + q.ops[k + 1..])
    ensures Apart(after, after.ops)
  {
    RemovedDiffers(q.ops, k);
    if AllDiffer(q.ops) {
      DifferIsApart(after, after.ops);
    } else {
      assert after.ops[0] == q.ops[0];
    }
  }

  lemma DifferIsApart(q: Queue, line: seq<Operation>)
    requires AllDiffer(line)
    ensures Apart(q, line)
  {
    if line != [] {
      TailDiffers(line);
    }
  }

  lemma ClearKeepsApart(r: Run, suppress: bool)
    requires Shape(r) && Enabled(r, Clear(suppress)) && Apart(r.q, Line(r))
    ensures var t := Next(r, Clear(suppress)); Apart(t.q, Line(t))
  {
    var q, ops := r.q, r.q.ops;
    var after := Cleared(q, suppress);
    assert Line(r) == ops && Line(Next(r, Clear(suppress))) == after.ops;
    if q.performing {
      KeptBehindFront(q, suppress);
    } else {
      assert AllDiffer(ops);
      KeptDiffers(ops, suppress);
      assert after.ops == Kept(ops, suppress);
      DifferIsApart(after, after.ops);
    }
  }

  lemma KeptBehindFront(q: Queue, suppress: bool)
    requires q.performing && q.ops != [] && Apart(q, q.ops)
    ensures Apart(Cleared(q, suppress), Cleared(q, suppress).ops)
  {
    var after, kept := Cleared(q, suppress), Kept(q.ops[1..], suppress);
    KeptDiffers(q.ops[1..], suppress);
    assert after.ops[1..] == kept && after.ops[0] == q.ops[0];
    if !AllowsTwin(q) {
      forall i | 0 <= i < |kept| ensures !Equals(q.ops[0], kept[i]) {
        assert kept[i] in q.ops[1..];
        var j :| 0 <= j < |q.ops[1..]| && q.ops[1..][j] == kept[i];
        assert q.ops[j + 1] == kept[i];
      }
      FrontDiffers(q.ops[0], kept);
      assert after.ops == [q.ops[0]] + kept;
    }
  }

  lemma ApartStep(r: Run, a: Action)
    requires RunInv(r) && Enabled(r, a) && Apart(r.q, Line(r))
    ensures Apart(Next(r, a).q, Line(Next(r, a)))
  {
    match a
    case AddCheck(op) => CheckKeepsApart(r, op);
    case Cancel(op) => CancelKeepsApart(r, op);
    case Clear(suppress) => ClearKeepsApart(r, suppress);
    case ThreadStep => ThreadKeepsApart(r);
    case DrainOne => DrainKeepsApart(r);
    case AddAppend => AppendKeepsApart(r);
    case Initialize => FlagsKeepApart(r, a);
    case BeginTeardown => FlagsKeepApart(r, a);
    case RequestStop => FlagsKeepApart(r, a);
    case FinishStop => FlagsKeepApart(r, a);
  }

  lemma DrainKeepsApart(r: Run)
    requires Enabled(r, DrainOne) && Apart(r.q, Line(r))
    ensures var t := Next(r, DrainOne); Apart(t.q, Line(t))
  {
    assert Line(Next(r, DrainOne)) == Line(r)[1..];
    FrontGone(r.q, Next(r, DrainOne).q, Line(r));
  }

  lemma AppendKeepsApart(r: Run)
    requires Enabled(r, AddAppend) && Apart(r.q, Line(r))
    ensures var t := Next(r, AddAppend); Apart(t.q, Line(t))
  {
    assert Line(Next(r, AddAppend)) == Line(r);
    if r.q.ops != [] {
      assert Next(r, AddAppend).q.ops[0] == r.q.ops[0];
    }
  }

  lemma FlagsKeepApart(r: Run, a: Action)
    requires Shape(r) && Enabled(r, a) && Apart(r.q, Line(r))
    requires a.Initialize? || a.BeginTeardown? || a.RequestStop? || a.FinishStop?
    ensures Apart(Next(r, a).q, Line(Next(r, a)))
  {
    assert Line(Next(r, a)) == Line(r);
    if a.FinishStop? {
      assert Line(r) == [];
    }
  }

  lemma {:induction false} RunsStayApart(start: Run, actions: seq<Action>, end: Run)
    requires RunInv(start) && Apart(start.q, Line(start)) && IsRun(start, actions, end)
    ensures RunInv(end) && Apart(end.q, Line(end))
    decreases |actions|
  {
    if actions != [] {
      ApartStep(start, actions[0]);
      StepKeepsInv(start, actions[0]);
      RunsStayApart(Next(start, actions[0]), actions[1..], end);
    }
  }

  lemma OnlyFrontHasTwin(q: Queue, line: seq<Operation>, i: nat, j: nat)
    requires Apart(q, line) && i < j < |line| && Equals(line[i], line[j])
    ensures i == 0 && AllowsTwin(q)
  {
    assert forall k :: 0 < k < |line| ==> line[k] == line[1..][k - 1];
  }

  /** No two queued operations are equal, but for the front once it runs; and one equal to it
      is admitted behind it only if its kind compares running operations. */
  lemma QueuedOperationsDiffer(actions: seq<Action>, r: Run, i: nat, j: nat)
    requires IsRun(INITIAL, actions, r)
    requires i < j < |r.q.ops| && Equals(r.q.ops[i], r.q.ops[j])
    ensures i == 0 && r.q.current == Some(r.q.ops[0]) && ComparesRunning(r.q.ops[0].queueType)
    ensures r.q.phase !in {Absent, AtTop, Started, Popped, Reported}
  {
    InitialInv();
    assert Line(INITIAL) == [];
    RunsStayApart(INITIAL, actions, r);
    OnlyFrontHasTwin(r.q, Line(r), i, j);
  }
}
