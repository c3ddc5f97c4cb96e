/** The counters of a recursive upload, changed only by interlocked instructions. Each action
    is one instruction of one thread; threads and files are unbounded in number. */
module UploadBatch {

  /** Where a thread stands inside a call. `next` is the file with which the loop over unstarted
      files goes on, when the call belongs to that loop. */
  datatype Point =
    | Decrement(file: nat, next: nat, looping: bool)
    | Undo(next: nat, looping: bool)
    | CheckReady(next: nat, looping: bool)
    | Claim(next: nat, looping: bool)
    | Post(next: nat, looping: bool)

  /** `counted` is the set of files whose decrement has happened, `posts` the number of
      completion messages posted. */
  datatype Batch = Batch(
    selected: nat, remaining: int, requested: bool,
    dispatched: bool, unstarted: bool, terminal: set<nat>,
    inside: map<nat, Point>, counted: set<nat>, posts: nat)

  function Initialized(selected: int): Batch {
    var n := if selected < 0 then 0 else selected;
    Batch(n, n, false, false, false, {}, map[], {}, 0)
  }

  datatype Action =
    | Dispatch(thread: nat)
    | CancelUnstarted(thread: nat)
    | FileComplete(thread: nat, file: nat)
    | Advance(thread: nat)

  /** The operations of the files exist once the batch has been dispatched. */
  predicate Enabled(b: Batch, a: Action) {
    match a
    case Dispatch(t) => t !in b.inside && !b.dispatched
    case CancelUnstarted(t) => t !in b.inside
    case FileComplete(t, f) => t !in b.inside && b.dispatched && f < b.selected
    case Advance(t) => t in b.inside
  }

  /** Returning from the completion of one file: the loop takes the next file or ends. */
  function Returned(b: Batch, t: nat, next: nat, looping: bool): Batch {
    if looping && next < b.selected
    then b.(inside := b.inside[t := Decrement(next, next + 1, true)])
    else b.(inside := b.inside - {t})
  }

  function Moved(b: Batch, t: nat, p: Point): Batch {
    b.(inside := b.inside[t := p])
  }

  function Next(b: Batch, a: Action): Batch
    requires Enabled(b, a)
  {
    match a
    case Dispatch(t) =>
      var d := b.(dispatched := true);
      if b.selected == 0 then Moved(d, t, CheckReady(0, false)) else d
    case CancelUnstarted(t) =>
      if b.unstarted then b
      else
        var d := b.(unstarted := true);
        if b.selected == 0 then Moved(d, t, CheckReady(0, false)) else Moved(d, t, Decrement(0, 1, true))
    case FileComplete(t, f) =>
      if f in b.terminal then b
      else Moved(b.(terminal := b.terminal + {f}), t, Decrement(f, 0, false))
    case Advance(t) => Advanced(b, t)
  }

  function Advanced(b: Batch, t: nat): Batch
    requires t in b.inside
  {
    match b.inside[t]
    case Decrement(file, next, looping) =>
      var d := b.(remaining := b.remaining - 1, counted := b.counted + {file});
      if d.remaining < 0 then Moved(d, t, Undo(next, looping))
      else if d.remaining == 0 then Moved(d, t, CheckReady(next, looping))
      else Returned(d, t, next, looping)
    case Undo(next, looping) => Returned(b.(remaining := b.remaining + 1), t, next, looping)
    case CheckReady(next, looping) =>
      if b.remaining != 0 then Returned(b, t, next, looping) else Moved(b, t, Claim(next, looping))
    case Claim(next, looping) =>
      if b.requested then Returned(b, t, next, looping)
      else Moved(b.(requested := true), t, Post(next, looping))
    case Post(next, looping) => Returned(b.(posts := b.posts + 1), t, next, looping)
  }

  ghost predicate IsRun(start: Batch, actions: seq<Action>, end: Batch)
    decreases |actions|
  {
    if actions == [] then end == start
    else Enabled(start, actions[0]) && IsRun(Next(start, actions[0]), actions[1..], end)
  }

  // ---------- one message at most, whatever happens ----------

  predicate Posting(b: Batch, t: nat) {
    t in b.inside && b.inside[t].Post?
  }

  predicate Decrementing(b: Batch, t: nat, f: nat) {
    t in b.inside && b.inside[t].Decrement? && b.inside[t].file == f
  }

  /** A thread that has seen the count reach zero and has not yet lost or made the request. */
  predicate AboutToRequest(b: Batch, t: nat) {
    t in b.inside && (b.inside[t].CheckReady? || b.inside[t].Claim?)
  }

  /** A step of one thread leaves the others where they are. */
  lemma OthersStay(b: Batch, c: Batch, t: nat)
    requires forall u :: u != t ==> (u in b.inside <==> u in c.inside)
    requires forall u :: u != t && u in b.inside ==> b.inside[u] == c.inside[u]
    ensures forall u: nat :: u != t ==> AboutToRequest(c, u) == AboutToRequest(b, u)
    ensures forall u: nat :: u != t ==> Posting(c, u) == Posting(b, u)
    ensures forall u: nat, g: nat :: u != t ==> Decrementing(c, u, g) == Decrementing(b, u, g)
  {
  }

  ghost predicate PostOnce(b: Batch) {
    && b.posts <= 1
    && (b.posts == 1 ==> b.requested)
    && (forall t :: Posting(b, t) ==> b.requested && b.posts == 0)
    && (forall t, u :: Posting(b, t) && Posting(b, u) ==> t == u)
  }

  lemma PostOnceStep(b: Batch, a: Action)
    requires PostOnce(b) && Enabled(b, a)
    ensures PostOnce(Next(b, a))
  {
    var c, t := Next(b, a), a.thread;
    if a.Advance? {
      AdvancePosts(b, t);
    } else {
      assert !Posting(c, t) && c.posts == b.posts && c.requested == b.requested;
    }
    PostersStay(b, c, t);
  }

  /** Only a claim that finds no request leads to posting. */
  lemma AdvancePosts(b: Batch, t: nat)
    requires t in b.inside
    ensures var c := Advanced(b, t);
      && (Posting(c, t) <==> b.inside[t].Claim? && !b.requested)
      && c.posts == b.posts + (if Posting(b, t) then 1 else 0)
      && (c.requested <==> b.requested || b.inside[t].Claim?)
      && (forall u: nat :: u != t ==> (u in b.inside <==> u in c.inside))
      && (forall u: nat :: u != t && u in b.inside ==> b.inside[u] == c.inside[u])
  {
  }

  lemma PostersStay(b: Batch, c: Batch, t: nat)
    requires PostOnce(b)
    requires forall u: nat :: u != t ==> (u in b.inside <==> u in c.inside)
    requires forall u: nat :: u != t && u in b.inside ==> b.inside[u] == c.inside[u]
    requires b.requested ==> c.requested
    requires Posting(c, t) ==> !b.requested && c.requested
    requires c.posts == b.posts + (if Posting(b, t) && !Posting(c, t) then 1 else 0)
    ensures PostOnce(c)
  {
    OthersStay(b, c, t);
    forall u | Posting(c, u) ensures c.requested && c.posts == 0 {
      assert u == t || Posting(b, u);
    }
    forall u, v | Posting(c, u) && Posting(c, v) ensures u == v {
      assert u != t ==> Posting(b, u);
      assert v != t ==> Posting(b, v);
    }
  }

  lemma {:induction false} AtMostOneMessage(start: Batch, actions: seq<Action>, end: Batch)
    requires PostOnce(start) && IsRun(start, actions, end)
    ensures PostOnce(end)
    decreases |actions|
  {
    if actions != [] {
      PostOnceStep(start, actions[0]);
      AtMostOneMessage(Next(start, actions[0]), actions[1..], end);
    }
  }

  // ---------- a batch that is dispatched or cancelled unstarted, not both ----------

  predicate OneWay(b: Batch) {
    !(b.dispatched && b.unstarted)
  }

  ghost function Upto(n: nat): (r: set<nat>)
    ensures forall f: nat :: f in r <==> f < n
    ensures |r| == n
  {
    if n == 0 then {} else Upto(n - 1) + {n - 1}
  }

  /** Each counted file has been counted once, and whoever brings the count to zero asks for
      the completion. */
  ghost predicate CountOk(b: Batch) {
    && b.counted <= Upto(b.selected)
    && b.remaining == b.selected - |b.counted|
    && (forall t :: t in b.inside ==> !b.inside[t].Undo?)
    && (forall t :: AboutToRequest(b, t) ==> b.counted == Upto(b.selected))
    && (b.requested ==> b.counted == Upto(b.selected))
    && (b.requested ==> b.posts == 1 || exists t :: Posting(b, t))
  }

  /** Nobody is forgotten: a full count leads to a request. */
  ghost predicate WillRequest(b: Batch) {
    b.counted == Upto(b.selected) ==> b.requested || exists t :: AboutToRequest(b, t)
  }

  ghost predicate FreshInv(b: Batch) {
    && !b.dispatched && !b.unstarted && !b.requested && b.posts == 0
    && b.inside == map[] && b.terminal == {} && b.counted == {} && b.remaining == b.selected
  }

  ghost predicate Attended(b: Batch, f: nat) {
    f in b.counted || exists t: nat :: Decrementing(b, t, f)
  }

  /** Dispatched: the file operations complete in any order on any threads. */
  ghost predicate DispatchedInv(b: Batch) {
    && b.dispatched && !b.unstarted && CountOk(b) && WillRequest(b)
    && b.counted <= b.terminal <= Upto(b.selected)
    && (forall t :: t in b.inside ==> !b.inside[t].looping)
    && (forall t: nat, f: nat :: Decrementing(b, t, f) ==> f in b.terminal && f !in b.counted)
    && (forall t: nat, u: nat, f: nat :: Decrementing(b, t, f) && Decrementing(b, u, f) ==> t == u)
    && (forall f: nat :: f in b.terminal ==> Attended(b, f))
  }

  /** Cancelled unstarted: one thread counts the files one after the other. */
  ghost predicate UnstartedInv(b: Batch) {
    && b.unstarted && !b.dispatched && CountOk(b) && WillRequest(b)
    && b.terminal == {}
    && (forall t, u :: t in b.inside && u in b.inside ==> t == u)
    && (b.inside == map[] ==> b.counted == Upto(b.selected))
    && (forall t :: t in b.inside ==> LoopPlace(b, b.inside[t]))
  }

  /** The looping thread has counted exactly the earlier files. */
  ghost predicate LoopPlace(b: Batch, p: Point) {
    if p.Decrement? then p.looping && p.file < b.selected && p.next == p.file + 1 && b.counted == Upto(p.file)
    else if p.looping then p.next <= b.selected && b.counted == Upto(p.next)
    else b.selected == 0
  }

  ghost predicate Inv(b: Batch) {
    PostOnce(b) && (FreshInv(b) || DispatchedInv(b) || UnstartedInv(b))
  }

  lemma SubsetOfUpto(s: set<nat>, n: nat)
    requires s <= Upto(n)
    ensures |s| <= n && (|s| == n <==> s == Upto(n))
  {
    SubsetSize(s, Upto(n));
  }

  lemma {:induction false} SubsetSize(s: set<nat>, t: set<nat>)
    requires s <= t
    ensures |s| <= |t| && (|s| == |t| <==> s == t)
  {
    if s != {} {
      var x :| x in s;
      SubsetSize(s - {x}, t - {x});
      assert s - {x} + {x} == s && t - {x} + {x} == t;
    }
  }

  lemma CountOne(b: Batch, f: nat)
    requires b.counted <= Upto(b.selected) && f < b.selected && f !in b.counted
    ensures |b.counted + {f}| == |b.counted| + 1 <= b.selected
    ensures |b.counted + {f}| == b.selected <==> b.counted + {f} == Upto(b.selected)
  {
    SubsetOfUpto(b.counted + {f}, b.selected);
  }

  lemma FreshStep(b: Batch, a: Action)
    requires FreshInv(b) && Enabled(b, a)
    ensures Inv(Next(b, a))
  {
    if a.Dispatch? {
      FreshDispatch(b, a.thread);
    } else if a.CancelUnstarted? {
      FreshCancel(b, a.thread);
    }
  }

  lemma FreshDispatch(b: Batch, t: nat)
    requires FreshInv(b)
    ensures PostOnce(Next(b, Dispatch(t))) && DispatchedInv(Next(b, Dispatch(t)))
  {
    if b.selected == 0 {
      assert AboutToRequest(Next(b, Dispatch(t)), t);
    } else {
      assert 0 in Upto(b.selected);
    }
  }

  lemma FreshCancel(b: Batch, t: nat)
    requires FreshInv(b)
    ensures PostOnce(Next(b, CancelUnstarted(t))) && UnstartedInv(Next(b, CancelUnstarted(t)))
  {
    if b.selected == 0 {
      assert AboutToRequest(Next(b, CancelUnstarted(t)), t);
    } else {
      assert 0 in Upto(b.selected);
      assert t in Next(b, CancelUnstarted(t)).inside;
    }
  }

  /** A thread with file `f` leaves the other files to whoever attended to them. */
  lemma StillAttended(b: Batch, c: Batch, t: nat, f: nat)
    requires forall g: nat :: g in b.terminal ==> Attended(b, g)
    requires c.terminal <= b.terminal + {f} && b.counted <= c.counted && Attended(c, f)
    requires forall g: nat :: g != f ==> !Decrementing(b, t, g)
    requires forall u: nat, g: nat :: u != t ==> Decrementing(c, u, g) == Decrementing(b, u, g)
    ensures forall g: nat :: g in c.terminal ==> Attended(c, g)
  {
    forall g: nat | g in c.terminal ensures Attended(c, g) {
      if g != f && g !in b.counted {
        var u: nat :| Decrementing(b, u, g);
        assert Decrementing(c, u, g);
      }
    }
  }

  lemma FileCompleteStep(b: Batch, t: nat, f: nat)
    requires DispatchedInv(b) && PostOnce(b) && Enabled(b, FileComplete(t, f))
    ensures DispatchedInv(Next(b, FileComplete(t, f)))
  {
    var c := Next(b, FileComplete(t, f));
    if f !in b.terminal {
      OthersStay(b, c, t);
      assert Decrementing(c, t, f) && !AboutToRequest(c, t) && !Posting(c, t);
      assert !AboutToRequest(b, t) && !Posting(b, t);
      forall g: nat | Decrementing(c, t, g) ensures g == f { }
      StillAttended(b, c, t, f);
    }
  }

  lemma DecrementStep(b: Batch, t: nat)
    requires DispatchedInv(b) && PostOnce(b) && Enabled(b, Advance(t)) && b.inside[t].Decrement?
    ensures DispatchedInv(Advanced(b, t))
  {
    var c := Advanced(b, t);
    var f := b.inside[t].file;
    OthersStay(b, c, t);
    assert Decrementing(b, t, f) && !AboutToRequest(b, t) && !Posting(b, t) && !Posting(c, t);
    assert f in Upto(b.selected) && f !in b.counted;
    CountOne(b, f);
    SubsetOfUpto(b.counted, b.selected);
    assert forall g: nat :: !Decrementing(c, t, g);
    assert AboutToRequest(c, t) <==> c.counted == Upto(c.selected);
    StillAttended(b, c, t, f);
  }

  lemma RequestStep(b: Batch, t: nat)
    requires DispatchedInv(b) && PostOnce(b) && Enabled(b, Advance(t)) && !b.inside[t].Decrement?
    ensures DispatchedInv(Advanced(b, t))
  {
    var c := Advanced(b, t);
    OthersStay(b, c, t);
    SubsetOfUpto(b.counted, b.selected);
    assert AboutToRequest(b, t) <==> b.inside[t].CheckReady? || b.inside[t].Claim?;
    assert Posting(b, t) <==> b.inside[t].Post?;
    assert Posting(c, t) <==> b.inside[t].Claim? && !b.requested;
    assert AboutToRequest(c, t) <==> b.inside[t].CheckReady?;
    assert forall g: nat :: !Decrementing(b, t, g) && !Decrementing(c, t, g);
    assert b.counted == Upto(b.selected);
  }

  lemma DispatchedStep(b: Batch, a: Action)
    requires DispatchedInv(b) && PostOnce(b) && Enabled(b, a)
    requires OneWay(Next(b, a))
    ensures DispatchedInv(Next(b, a))
  {
    match a
    case Dispatch(_) =>
    case CancelUnstarted(_) =>
    case FileComplete(t, f) => FileCompleteStep(b, t, f);
    case Advance(t) =>
      if b.inside[t].Decrement? {
        DecrementStep(b, t);
      } else {
        RequestStep(b, t);
      }
  }

  lemma UnstartedStep(b: Batch, a: Action)
    requires UnstartedInv(b) && PostOnce(b) && Enabled(b, a)
    requires OneWay(Next(b, a))
    ensures UnstartedInv(Next(b, a))
  {
    if a.Advance? {
      UnstartedAdvance(b, a.thread);
    }
  }

  lemma UnstartedAdvance(b: Batch, t: nat)
    requires UnstartedInv(b) && PostOnce(b) && Enabled(b, Advance(t))
    ensures UnstartedInv(Advanced(b, t))
  {
    if b.inside[t].Decrement? {
      UnstartedDecrement(b, t);
    } else {
      UnstartedRequest(b, t);
    }
  }

  lemma UnstartedDecrement(b: Batch, t: nat)
    requires UnstartedInv(b) && PostOnce(b) && t in b.inside && b.inside[t].Decrement?
    ensures UnstartedInv(Advanced(b, t))
  {
    var c, p := Advanced(b, t), b.inside[t];
    assert LoopPlace(b, p) && !AboutToRequest(b, t) && !Posting(b, t) && !Posting(c, t);
    SubsetOfUpto(b.counted, b.selected);
    CountOne(b, p.file);
    assert Upto(p.file) + {p.file} == Upto(p.file + 1);
    if p.next < b.selected {
      assert p.next in Upto(b.selected) && p.next !in Upto(p.next);
    }
    assert t in c.inside ==> LoopPlace(c, c.inside[t]);
    assert AboutToRequest(c, t) <==> c.counted == Upto(c.selected);
  }

  lemma UnstartedRequest(b: Batch, t: nat)
    requires UnstartedInv(b) && PostOnce(b) && t in b.inside && !b.inside[t].Decrement?
    ensures UnstartedInv(Advanced(b, t))
  {
    var c, p := Advanced(b, t), b.inside[t];
    assert LoopPlace(b, p);
    assert AboutToRequest(b, t) <==> p.CheckReady? || p.Claim?;
    assert Posting(b, t) <==> p.Post?;
    SubsetOfUpto(b.counted, b.selected);
    assert t in c.inside ==> LoopPlace(c, c.inside[t]);
    assert AboutToRequest(c, t) <==> p.CheckReady? && b.remaining == 0;
    assert Posting(c, t) <==> p.Claim? && !b.requested;
  }

  lemma StepKeepsInv(b: Batch, a: Action)
    requires Inv(b) && Enabled(b, a) && OneWay(Next(b, a))
    ensures Inv(Next(b, a))
  {
    PostOnceStep(b, a);
    if FreshInv(b) {
      FreshStep(b, a);
    } else if DispatchedInv(b) {
      DispatchedStep(b, a);
    } else {
      UnstartedStep(b, a);
    }
  }

  lemma {:induction false} FlagsStay(start: Batch, actions: seq<Action>, end: Batch)
    requires IsRun(start, actions, end)
    ensures start.dispatched ==> end.dispatched
    ensures start.unstarted ==> end.unstarted
    ensures start.selected == end.selected
    decreases |actions|
  {
    if actions != [] {
      FlagsStay(Next(start, actions[0]), actions[1..], end);
    }
  }

  lemma {:induction false} RunsKeepInv(start: Batch, actions: seq<Action>, end: Batch)
    requires Inv(start) && IsRun(start, actions, end) && OneWay(end)
    ensures Inv(end)
    decreases |actions|
  {
    if actions != [] {
      FlagsStay(Next(start, actions[0]), actions[1..], end);
      StepKeepsInv(start, actions[0]);
      RunsKeepInv(Next(start, actions[0]), actions[1..], end);
    }
  }

  /** Nobody is inside a call, and every selected file has reached its end. */
  predicate Settled(b: Batch) {
    b.inside == map[] && (b.unstarted || (b.dispatched && forall f: nat :: f < b.selected ==> f in b.terminal))
  }

  /** Whatever the threads do, at most one completion message is posted. A batch that has been
      dispatched or cancelled unstarted, but not both, never counts below zero, never asks
      before all its files have ended, and has asked exactly once when they have. */
  lemma CompletionExactlyOnce(selected: int, actions: seq<Action>, b: Batch)
    requires IsRun(Initialized(selected), actions, b)
    ensures b.posts <= 1
    ensures OneWay(b) ==> 0 <= b.remaining == b.selected - |b.counted|
    ensures OneWay(b) && (b.requested || b.posts > 0) ==>
      b.remaining == 0 && forall f: nat :: f < b.selected ==> f in b.counted && (b.dispatched ==> f in b.terminal)
    ensures OneWay(b) && Settled(b) ==> b.posts == 1
  {
    assert FreshInv(Initialized(selected));
    AtMostOneMessage(Initialized(selected), actions, b);
    if OneWay(b) {
      RunsKeepInv(Initialized(selected), actions, b);
      SubsetOfUpto(b.counted, b.selected);
      if Settled(b) {
        SettledIsCounted(b);
      }
    }
  }

  lemma SettledIsCounted(b: Batch)
    requires Inv(b) && OneWay(b) && Settled(b)
    ensures b.counted == Upto(b.selected) && b.posts == 1
  {
    if b.dispatched {
      forall f: nat | f < b.selected ensures f in b.counted {
        assert Attended(b, f);
      }
    }
    assert b.counted == Upto(b.selected);
  }

  // ---------- why not both ----------

  ghost predicate Reached(selected: int, b: Batch) {
    exists actions :: IsRun(Initialized(selected), actions, b)
  }

  lemma {:induction false} RunExtends(start: Batch, actions: seq<Action>, b: Batch, a: Action)
    requires IsRun(start, actions, b) && Enabled(b, a)
    ensures IsRun(start, actions + [a], Next(b, a))
    decreases |actions|
  {
    if actions == [] {
      assert actions + [a] == [a];
      assert IsRun(Next(b, a), [a][1..], Next(b, a));
    } else {
      assert (actions + [a])[1..] == actions[1..] + [a];
      RunExtends(Next(start, actions[0]), actions[1..], b, a);
    }
  }

  lemma Take(selected: int, b: Batch, a: Action) returns (c: Batch)
    requires Reached(selected, b) && Enabled(b, a)
    ensures Reached(selected, c) && c == Next(b, a)
  {
    var actions :| IsRun(Initialized(selected), actions, b);
    RunExtends(Initialized(selected), actions, b, a);
    c := Next(b, a);
  }

  /** A batch that is both dispatched and cancelled unstarted can announce its completion
      while one of its two files has not ended. */
  lemma BothWaysAnnouncesTooEarly() returns (b: Batch)
    ensures Reached(2, b) && !OneWay(b)
    ensures b.posts == 1 && 1 < b.selected && 1 !in b.terminal && 1 !in b.counted
  {
    assert IsRun(Initialized(2), [], Initialized(2));
    b := Take(2, Initialized(2), Dispatch(7));
    b := Take(2, b, FileComplete(7, 0));
    b := Take(2, b, Advance(7));
    b := Take(2, b, CancelUnstarted(8));
    b := Take(2, b, Advance(8));
    b := Take(2, b, Advance(8));
    b := Take(2, b, Advance(8));
    b := Take(2, b, Advance(8));
  }
}
