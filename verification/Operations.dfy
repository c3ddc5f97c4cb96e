/** What a queued operation is: the fields its duplicate and conflict tests compare. */
module Operations {

  datatype Option<+T> = None | Some(value: T)

  /** Only the kinds the queues tell apart; every other kind keeps its code. */
  datatype QueueType =
    | Upload | Download | DownloadHandle | CopyFile | UploadComplete | DownloadComplete | Other(code: nat)

  /** `id` stands for the address of the object: two operations are the same object
      exactly when they are equal values. `local` and `remote` are what the class of the
      operation compares: two paths, or one and a file handle written as text. */
  datatype Operation = Operation(
    id: nat, queueType: QueueType, window: int, notifyData: int, local: string, remote: string)

  predicate PathsConflict(localA: string, remoteA: string, localB: string, remoteB: string) {
    localA == localB && remoteA == remoteB
  }

  /** Two transfers that must not run at the same time. */
  predicate Conflicts(a: Operation, b: Operation) {
    && a.queueType == Upload && b.queueType == Upload
    && PathsConflict(a.local, a.remote, b.local, b.remote)
  }

  /** Duplicate test between operations that are not running and share their client. */
  predicate Equals(a: Operation, b: Operation) {
    && a.queueType == b.queueType && a.window == b.window && a.notifyData == b.notifyData
    && a.local == b.local && a.remote == b.remote
  }

  /** Kinds whose duplicate test also fails while either side is running. */
  predicate ComparesRunning(t: QueueType) {
    t == Upload || t == Download || t == DownloadHandle || t == CopyFile
  }

  predicate IsCompletionMarker(op: Operation) {
    op.queueType == UploadComplete || op.queueType == DownloadComplete
  }

  // ---------- sequences of operations ----------

  function RemoveAt(s: seq<Operation>, i: nat): (r: seq<Operation>)
    requires i < |s|
    ensures multiset(r) + multiset{s[i]} == multiset(s)
  {
    assert s == s[..i] + [s[i]] + s[i + 1..];
    s[..i] + s[i + 1..]
  }

  /** The least index whose element satisfies the test, or the length when none does. */
  function FirstMatching<T>(s: seq<T>, test: T -> bool): (i: nat)
    ensures i <= |s|
    ensures i < |s| ==> test(s[i])
    ensures forall j :: 0 <= j < i ==> !test(s[j])
  {
    if s == [] then 0
    else if test(s[0]) then 0
    else
      var k := FirstMatching(s[1..], test);
      assert forall j :: 1 <= j < k + 1 ==> s[j] == s[1..][j - 1];
      k + 1
  }

  function FirstIndexOf(s: seq<Operation>, op: Operation): (i: nat)
    ensures i <= |s|
    ensures i < |s| <==> op in s
    ensures i < |s| ==> s[i] == op
    ensures forall j :: 0 <= j < i ==> s[j] != op
  {
    FirstMatching(s, x => x == op)
  }

  /** A deque with the first occurrence of an operation erased, when there is one. */
  function Erased(s: seq<Operation>, op: Operation): (r: seq<Operation>)
    ensures multiset(r) == multiset(s) - multiset{op}
  {
    var i := FirstIndexOf(s, op);
    if i < |s| then
      var r := RemoveAt(s, i);
      assert multiset(r) == multiset(s) - multiset{op};
      r
    else s
  }

  /** The scan every list in this program does: front to back, stopping at the first hit. */
  method Scan<T>(s: seq<T>, test: T -> bool) returns (i: nat)
    ensures i == FirstMatching(s, test)
  {
    i := 0;
    while i < |s| && !test(s[i])
      invariant i <= |s|
      invariant forall j :: 0 <= j < i ==> !test(s[j])
    {
      i := i + 1;
    }
    var k := FirstMatching(s, test);
    assert i >= k && !(k < i);
  }
}
