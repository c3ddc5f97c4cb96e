/** The two dispatch lanes. Every list operation is a front-to-back scan of a deque. */
module SchedulingPolicy {
  import opened Operations

  datatype Priority = Normal | Urgent

  datatype Lanes = Lanes(urgent: seq<Operation>, normal: seq<Operation>)

  predicate Waits(l: Lanes, op: Operation) {
    op in l.urgent || op in l.normal
  }

  ghost function Content(l: Lanes): multiset<Operation> {
    multiset(l.urgent) + multiset(l.normal)
  }

  function Pushed(l: Lanes, op: Operation, p: Priority): Lanes {
    if p == Urgent then l.(urgent := l.urgent + [op]) else l.(normal := l.normal + [op])
  }

  /** The first urgent operation that passes the test, else the first normal one. */
  function TakenMatching(l: Lanes, test: Operation -> bool): (r: (Option<Operation>, Lanes))
  {
    var u := FirstMatching(l.urgent, test);
    var n := FirstMatching(l.normal, test);
    if u < |l.urgent| then (Some(l.urgent[u]), l.(urgent := RemoveAt(l.urgent, u)))
    else if n < |l.normal| then (Some(l.normal[n]), l.(normal := RemoveAt(l.normal, n)))
    else (None, l)
  }

  function TakenNext(l: Lanes): (Option<Operation>, Lanes) {
    if l.urgent != [] then (Some(l.urgent[0]), l.(urgent := l.urgent[1..]))
    else if l.normal != [] then (Some(l.normal[0]), l.(normal := l.normal[1..]))
    else (None, l)
  }

  function Promoted(l: Lanes, op: Operation): Lanes {
    if op in l.urgent || op !in l.normal then l
    else Lanes(l.urgent + [op], Erased(l.normal, op))
  }

  function Removed(l: Lanes, op: Operation): Lanes {
    if op in l.urgent then l.(urgent := Erased(l.urgent, op))
    else l.(normal := Erased(l.normal, op))
  }

  /** The waiting operation a scan of both lanes meets first. */
  function Found(l: Lanes, test: Operation -> bool): (r: Option<Operation>)
    ensures r.Some? ==> Waits(l, r.value) && test(r.value)
    ensures r.None? ==> forall op :: Waits(l, op) ==> !test(op)
  {
    TakenMatching(l, test).0
  }

  class UploadSchedulingPolicy {
    var urgent: seq<Operation>
    var normal: seq<Operation>

    constructor ()
      ensures View() == Lanes([], [])
    {
      urgent, normal := [], [];
    }

    function View(): Lanes
      reads this
    {
      Lanes(urgent, normal)
    }

    method Push(op: Operation, priority: Priority)
      modifies this
      ensures View() == Pushed(old(View()), op, priority)
    {
      if priority == Urgent {
        urgent := urgent + [op];
      } else {
        normal := normal + [op];
      }
    }

    method TakeNext() returns (op: Option<Operation>)
      modifies this
      ensures (op, View()) == TakenNext(old(View()))
    {
      op := None;
      if urgent != [] {
        op := Some(urgent[0]);
        urgent := urgent[1..];
      } else if normal != [] {
        op := Some(normal[0]);
        normal := normal[1..];
      }
    }

    method TakeNextMatching(test: Operation -> bool) returns (op: Option<Operation>)
      modifies this
      ensures (op, View()) == TakenMatching(old(View()), test)
    {
      op, urgent := TakeFirstMatching(urgent, test);
      if op.None? {
        op, normal := TakeFirstMatching(normal, test);
      }
    }

    method PromoteWaiting(op: Operation) returns (found: bool)
      modifies this
      ensures found == Waits(old(View()), op)
      ensures View() == Promoted(old(View()), op)
    {
      var u := Scan(urgent, x => x == op);
      if u < |urgent| {
        return true;
      }
      var n := Scan(normal, x => x == op);
      if n < |normal| {
        normal := normal[..n] + normal[n + 1..];
        urgent := urgent + [op];
        return true;
      }
      return false;
    }

    method Remove(op: Operation) returns (found: bool)
      modifies this
      ensures found == Waits(old(View()), op)
      ensures View() == Removed(old(View()), op)
    {
      found, urgent := RemoveFrom(urgent, op);
      if !found {
        found, normal := RemoveFrom(normal, op);
      }
    }

    method FindWaiting(test: Operation -> bool) returns (r: Option<Operation>)
      ensures r == Found(View(), test)
    {
      var u := Scan(urgent, test);
      if u < |urgent| {
        return Some(urgent[u]);
      }
      var n := Scan(normal, test);
      r := if n < |normal| then Some(normal[n]) else None;
    }

    static method TakeFirstMatching(queue: seq<Operation>, test: Operation -> bool)
      returns (op: Option<Operation>, rest: seq<Operation>)
      ensures var i := FirstMatching(queue, test);
        if i < |queue| then op == Some(queue[i]) && rest == RemoveAt(queue, i)
        else op == None && rest == queue
    {
      var i := Scan(queue, test);
      if i < |queue| {
        op, rest := Some(queue[i]), queue[..i] + queue[i + 1..];
      } else {
        op, rest := None, queue;
      }
    }

    static method RemoveFrom(queue: seq<Operation>, op: Operation)
      returns (found: bool, rest: seq<Operation>)
      ensures found == (op in queue) && rest == Erased(queue, op)
    {
      var i := Scan(queue, x => x == op);
      found := i < |queue|;
      rest := if found then queue[..i] + queue[i + 1..] else queue;
    }
  }

  // ---------- what the lanes guarantee ----------

  lemma PushedContent(l: Lanes, op: Operation, p: Priority)
    ensures Content(Pushed(l, op, p)) == Content(l) + multiset{op}
  {
  }

  lemma TakenContent(l: Lanes, test: Operation -> bool)
    ensures var (op, rest) := TakenMatching(l, test);
      && (op.None? ==> rest == l && forall x :: Waits(l, x) ==> !test(x))
      && (op.Some? ==> Waits(l, op.value) && test(op.value)
                       && Content(rest) + multiset{op.value} == Content(l))
  {
  }

  lemma TakenNextContent(l: Lanes)
    ensures var (op, rest) := TakenNext(l);
      && (op.None? <==> l == Lanes([], []))
      && (op.None? ==> rest == l)
      && (op.Some? ==> Content(rest) + multiset{op.value} == Content(l))
  {
    if l.urgent != [] {
      assert l.urgent == [l.urgent[0]] + l.urgent[1..];
    } else if l.normal != [] {
      assert l.normal == [l.normal[0]] + l.normal[1..];
    }
  }

  lemma PromotedContent(l: Lanes, op: Operation)
    ensures Content(Promoted(l, op)) == Content(l)
    ensures Waits(l, op) ==> op in Promoted(l, op).urgent
  {
  }

  lemma RemovedContent(l: Lanes, op: Operation)
    requires Waits(l, op)
    ensures Content(Removed(l, op)) + multiset{op} == Content(l)
  {
  }

  lemma WaitsIsContent(l: Lanes, op: Operation)
    ensures Waits(l, op) <==> op in Content(l)
  {
  }
}
