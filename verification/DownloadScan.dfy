/** The scan of a download plan: it walks a list to which every listing appends. */
module DownloadScan {
  import opened Operations
  import opened ListingOrder
  import opened RemotePaths
  import opened DownloadItems

  /** A directory that the scan will still ask the server for. */
  predicate IsPending(item: Item) {
    item.selected && !item.isLink && item.isDirectory && !item.scanned
  }

  ghost function PendingLength(item: Item): multiset<nat> {
    if IsPending(item) then multiset{|item.remotePath|} else multiset{}
  }

  /** Path lengths of the pending directories. */
  ghost function PendingLengths(items: seq<Item>): multiset<nat> {
    if items == [] then multiset{} else PendingLength(items[0]) + PendingLengths(items[1..])
  }

  lemma {:induction false} LengthsOfAppended(items: seq<Item>, more: seq<Item>)
    ensures PendingLengths(items + more) == PendingLengths(items) + PendingLengths(more)
  {
    if items == [] {
      assert items + more == more;
    } else {
      assert (items + more)[1..] == items[1..] + more;
      LengthsOfAppended(items[1..], more);
    }
  }

  lemma {:induction false} LengthsBetween(items: seq<Item>, low: int)
    requires forall k :: 0 <= k < |items| ==> low < |items[k].remotePath| < MAX_PATH
    ensures forall y :: y in PendingLengths(items) ==> low < y < MAX_PATH
  {
    if items != [] {
      LengthsBetween(items[1..], low);
    }
  }

  /** One listing replaces the length of the directory by greater ones. */
  lemma ListingReplacesLength(items: seq<Item>, i: nat, added: seq<Item>, after: seq<Item>)
    requires i < |items| && IsPending(items[i])
    requires after == (items + added)[i := (items + added)[i].(scanned := true)]
    requires forall k :: 0 <= k < |added| ==> |items[i].remotePath| < |added[k].remotePath| < MAX_PATH
    ensures Above(|items[i].remotePath|, PendingLengths(added))
    ensures PendingLengths(after[i + 1..])
         == Listed(PendingLengths(items[i..]), |items[i].remotePath|, PendingLengths(added))
  {
    var l := |items[i].remotePath|;
    LengthsBetween(added, l);
    assert after[i + 1..] == items[i + 1..] + added;
    LengthsOfAppended(items[i + 1..], added);
    assert items[i..][0] == items[i] && items[i..][1..] == items[i + 1..];
    var rest := PendingLengths(items[i + 1..]);
    assert multiset{l} + rest - multiset{l} == rest;
  }

  ghost predicate AllScanned(items: seq<Item>, n: nat) {
    n <= |items| && forall k :: 0 <= k < n ==> !IsPending(items[k])
  }

  /** Directories that were selected when they were listed are the parents of what they list. */
  lemma ListedAreParented(r: Roots, items: seq<Item>, i: nat, after: seq<Item>)
    requires Parented(r, items) && i < |items| && IsPending(items[i])
    requires items <= after
    requires forall k :: |items| <= k < |after| ==> IsNew(r, items[i].remotePath, items[i].localPath, after[k])
    ensures Parented(r, after[i := after[i].(scanned := true)])
  {
    var marked := after[i := after[i].(scanned := true)];
    forall k | 0 < k < |marked| && marked[k].selected ensures HasParent(marked, k) {
      if k < |items| {
        assert HasParent(items, k);
        var q :| 0 <= q < k && IsParent(items[q], items[k]);
        assert IsParent(marked[q], marked[k]);
      } else {
        assert IsParent(marked[i], marked[k]);
      }
    }
  }

  lemma ScannedKeeps(r: Roots, items: seq<Item>, i: nat)
    requires i < |items|
    ensures var marked := items[i := items[i].(scanned := true)];
      (AllPlaced(r, items) ==> AllPlaced(r, marked)) && (NoneShadowed(r, items) ==> NoneShadowed(r, marked))
  {
    ScannedStaysPlaced(r, items, i);
    ScannedStaysUnshadowed(r, items, i);
  }

  lemma ScannedStaysPlaced(r: Roots, items: seq<Item>, i: nat)
    requires i < |items|
    ensures AllPlaced(r, items) ==> AllPlaced(r, items[i := items[i].(scanned := true)])
  {
    var marked := items[i := items[i].(scanned := true)];
    if AllPlaced(r, items) {
      forall k | 0 <= k < |marked| ensures Placed(r, marked[k]) {
        assert Placed(r, items[k]);
      }
    }
  }

  lemma ScannedStaysUnshadowed(r: Roots, items: seq<Item>, i: nat)
    requires i < |items|
    ensures NoneShadowed(r, items) ==> NoneShadowed(r, items[i := items[i].(scanned := true)])
  {
    var marked := items[i := items[i].(scanned := true)];
    assert forall k :: 0 <= k < |items| ==> marked[k].localPath == items[k].localPath && marked[k].selected == items[k].selected;
  }

  lemma PassedOver(items: seq<Item>, i: nat)
    requires AllScanned(items, i) && i < |items| && !IsPending(items[i])
    ensures AllScanned(items, i + 1) && PendingLengths(items[i..]) == PendingLengths(items[i + 1..])
  {
    assert items[i..][1..] == items[i + 1..];
  }

  /** Listing a pending directory lowers the rank of what is pending. */
  lemma RankFalls(r: Roots, before: seq<Item>, i: nat, listed: seq<Item>, after: seq<Item>)
    requires AllPlaced(r, before) && i < |before| && IsPending(before[i])
    requires before <= listed && after == listed[i := listed[i].(scanned := true)]
    requires forall k :: |before| <= k < |listed| ==> |before[i].remotePath| < |listed[k].remotePath| < MAX_PATH
    ensures Rank(PendingLengths(after[i + 1..])) < Rank(PendingLengths(before[i..]))
  {
    var added := listed[|before|..];
    assert before + added == listed;
    ListingReplacesLength(before, i, added, after);
    assert forall k :: 0 <= k < |before| ==> Placed(r, before[k]);
    LengthsBetween(before[i..], -1);
    ListingLowersRank(PendingLengths(before[i..]), |before[i].remotePath|, PendingLengths(added));
  }

  // ---------- what a scan leaves behind ----------

  /** The items and failures after a listing, if the listing is accepted. `behind` tells that
      the local directory lies behind a reparse point. */
  function Applied(r: Roots, items: seq<Item>, failures: seq<Failure>, path: string, files: seq<FtpFile>, behind: bool)
    : Option<(seq<Item>, seq<Failure>)>
  {
    var directory := Normalized(r.platform, path);
    if directory.None? || !HasRemotePrefix(r.remote, directory.value) then None
    else if LocalPath(r, directory.value).None? then Some((items, failures + [DirectoryOutsideRoot]))
    else if behind then Some((items, failures + [DirectoryBehindReparsePoint]))
    else Some(Listing(r, items, failures, directory.value, files))
  }

  /** What was answered for the directory at an index. */
  datatype Answer = Answer(index: nat, files: seq<FtpFile>, behind: bool)

  function ScanStep(r: Roots, items: seq<Item>, failures: seq<Failure>, a: Answer): Option<(seq<Item>, seq<Failure>)> {
    if a.index >= |items| || !IsPending(items[a.index]) then None
    else
      match Applied(r, items, failures, items[a.index].remotePath, a.files, a.behind)
      case None => None
      case Some((after, log)) =>
        if a.index >= |after| then None
        else Some((after[a.index := after[a.index].(scanned := true)], log))
  }

  /** The answers taken one after the other. */
  ghost function ScanSteps(r: Roots, items: seq<Item>, failures: seq<Failure>, answers: seq<Answer>)
    : Option<(seq<Item>, seq<Failure>)>
    decreases |answers|
  {
    if answers == [] then Some((items, failures))
    else
      var n := |answers| - 1;
      match ScanSteps(r, items, failures, answers[..n])
      case None => None
      case Some((after, log)) => ScanStep(r, after, log, answers[n])
  }

  /** No directory is asked for twice. */
  ghost predicate Ascending(answers: seq<Answer>, limit: nat) {
    && (forall j, k :: 0 <= j < k < |answers| ==> answers[j].index < answers[k].index)
    && (forall k :: 0 <= k < |answers| ==> answers[k].index < limit)
  }

  lemma AscendsFurther(answers: seq<Answer>, limit: nat)
    requires Ascending(answers, limit)
    ensures Ascending(answers, limit + 1)
  {
  }

  lemma OneMoreStep(r: Roots, items: seq<Item>, failures: seq<Failure>, answers: seq<Answer>, a: Answer)
    requires ScanSteps(r, items, failures, answers).Some? && Ascending(answers, a.index)
    ensures var (after, log) := ScanSteps(r, items, failures, answers).value;
      ScanSteps(r, items, failures, answers + [a]) == ScanStep(r, after, log, a)
    ensures Ascending(answers + [a], a.index + 1)
  {
    assert (answers + [a])[..|answers|] == answers;
  }

  lemma NormalizedAlready(p: Platform, path: string)
    requires path != "" && path[|path| - 1] != '/'
    ensures Normalized(p, path) in {None, Some(path)}
  {
    assert StripSlashes(path, 1) == path;
  }

  /** What a call of ApplyRemoteDirectoryListing for a pending item has done to the list. */
  lemma AppliedListing(r: Roots, before: seq<Item>, i: nat, log: seq<Failure>,
    files: seq<FtpFile>, behind: bool, after: seq<Item>)
    requires AllPlaced(r, before) && NoneShadowed(r, before) && Parented(r, before)
    requires i < |before| && IsPending(before[i])
    requires var applied := Applied(r, before, log, before[i].remotePath, files, behind);
      applied.Some? && applied.value.0 == after
    ensures before <= after
    ensures forall k :: |before| <= k < |after| ==> |before[i].remotePath| < |after[k].remotePath| < MAX_PATH
    ensures AllPlaced(r, after[i := after[i].(scanned := true)])
    ensures NoneShadowed(r, after[i := after[i].(scanned := true)])
    ensures Parented(r, after[i := after[i].(scanned := true)])
  {
    assert Placed(r, before[i]);
    NormalizedAlready(r.platform, before[i].remotePath);
    ListingAppends(r, before, log, before[i].remotePath, files);
    ScannedKeeps(r, after, i);
    ListedAreParented(r, before, i, after);
  }

  /** A normalised path is the path without the slashes at its end. */
  lemma NormalizedShape(p: Platform, path: string)
    ensures var d := Normalized(p, path);
      d.Some? ==>
        && |d.value| > 1 && d.value[0] == '/' && d.value[|d.value| - 1] != '/'
        && d.value <= path && forall i :: |d.value| <= i < |path| ==> path[i] == '/'
  {
  }

  // ---------- which directories are accepted ----------

  /** One name below the server's root. */
  lemma NormalizedName(p: Platform, name: string)
    requires name != "" && '/' !in name
    ensures Normalized(p, "/" + name) ==
      if |name| + 1 < MAX_PATH && LocalName(p, name).Some? then Some("/" + name) else None
  {
    var path := "/" + name;
    assert name[|name| - 1] in name;
    assert path[1..] == name && StripSlashes(path, 1) == path;
    SegmentsOfName(p, name);
  }

  /** One name deeper. */
  lemma NormalizedOneDeeper(p: Platform, directory: string, name: string)
    requires |directory| > 1 && directory[|directory| - 1] != '/' && name != "" && '/' !in name
    ensures Normalized(p, directory + "/" + name) ==
      if Normalized(p, directory).Some? && LocalName(p, name).Some? && |directory| + 1 + |name| < MAX_PATH
      then Some(directory + "/" + name) else None
  {
    var path := directory + "/" + name;
    assert name[|name| - 1] in name && path[|path| - 1] == name[|name| - 1];
    assert StripSlashes(path, 1) == path && StripSlashes(directory, 1) == directory;
    assert path[1..] == directory[1..] + "/" + name;
    SegmentsOfOneMore(p, directory[1..], name);
  }

  /** Slashes at the end do not matter; the root of the server is refused, and so is a path
      that does not start there. */
  lemma NormalizedEnds(p: Platform, path: string)
    ensures path != "" && path[0] == '/' && |path| + 1 < MAX_PATH ==> Normalized(p, path + "/") == Normalized(p, path)
    ensures Normalized(p, "/") == None && (path == "" || path[0] != '/' ==> Normalized(p, path) == None)
  {
    assert (path + "/")[..|path|] == path;
    if path != "" && path[0] == '/' && |path| + 1 < MAX_PATH {
      assert StripSlashes(path + "/", 1) == StripSlashes(path, 1);
    }
  }

  /** In a plan that was built, the answer for a pending directory is never refused. */
  lemma PendingIsAccepted(r: Roots, items: seq<Item>, failures: seq<Failure>, i: nat, files: seq<FtpFile>, behind: bool)
    requires Normalized(r.platform, r.remote) == Some(r.remote)
    requires AllPlaced(r, items) && i < |items| && IsPending(items[i])
    ensures ScanStep(r, items, failures, Answer(i, files, behind)).Some?
  {
    assert Placed(r, items[i]);
    PlacedIsNormalized(r, items[i]);
    ListingAppends(r, items, failures, items[i].remotePath, files);
  }

  lemma PlacedIsNormalized(r: Roots, item: Item)
    requires Normalized(r.platform, r.remote) == Some(r.remote) && Placed(r, item) && item.isDirectory
    ensures Normalized(r.platform, item.remotePath) == Some(item.remotePath)
  {
    var path := item.remotePath;
    NormalizedShape(r.platform, r.remote);
    if path != r.remote {
      LocalPathFrom(r.platform, r.local, r.remote, path, path[|r.remote| + 1..]);
      BelowNormalized(r.platform, r.remote, path);
    }
  }

  lemma BelowNormalized(p: Platform, remote: string, path: string)
    requires Normalized(p, remote) == Some(remote) && |remote| > 1 && remote[|remote| - 1] != '/'
    requires HasRemotePrefix(remote, path) && path != remote && |path| < MAX_PATH && path[|path| - 1] != '/'
    requires LocalSegments(p, path[|remote| + 1..]).Some?
    ensures Normalized(p, path) == Some(path)
  {
    NormalizedBySegments(p, remote);
    SegmentsOfBoth(p, remote[1..], path[|remote| + 1..]);
    BelowRemote(remote, path);
    NormalizedBySegments(p, path);
  }

  lemma NormalizedBySegments(p: Platform, path: string)
    requires 1 < |path| < MAX_PATH && path[0] == '/' && path[|path| - 1] != '/'
    ensures Normalized(p, path) == if LocalSegments(p, path[1..]).Some? then Some(path) else None
  {
    assert StripSlashes(path, 1) == path;
  }

  lemma BelowRemote(remote: string, path: string)
    requires remote != "" && HasRemotePrefix(remote, path) && path != remote
    ensures path[0] == remote[0] && path[1..] == remote[1..] + "/" + path[|remote| + 1..]
  {
    assert path == remote + "/" + path[|remote| + 1..];
  }

  /** Any listing at all keeps every item in its place and the selected paths apart. */
  lemma AppliedKeepsItems(r: Roots, items: seq<Item>, failures: seq<Failure>, path: string, files: seq<FtpFile>, behind: bool)
    requires AllPlaced(r, items) && NoneShadowed(r, items)
    ensures var applied := Applied(r, items, failures, path, files, behind);
      applied.Some? ==> AllPlaced(r, applied.value.0) && NoneShadowed(r, applied.value.0)
  {
    var directory := Normalized(r.platform, path);
    NormalizedShape(r.platform, path);
    if directory.Some? && HasRemotePrefix(r.remote, directory.value) && LocalPath(r, directory.value).Some? {
      ListingAppends(r, items, failures, directory.value, files);
    }
  }

  /** Normalising twice changes nothing. */
  lemma RootsAreNormalized(p: Platform, localParent: string, remoteRoot: string)
    requires RootsFor(p, localParent, remoteRoot).Some?
    ensures var r := RootsFor(p, localParent, remoteRoot).value;
      r.platform == p && Normalized(p, r.remote) == Some(r.remote)
  {
    var remote := Normalized(p, remoteRoot).value;
    NormalizedShape(p, remoteRoot);
    assert StripSlashes(remote, 1) == remote;
    assert remote[0] == remoteRoot[0];
  }

  lemma {:induction false} LastSegmentIs(front: string, name: string)
    requires '/' !in name
    ensures LastSegment(front + "/" + name) == name
    decreases |name|
  {
    var path := front + "/" + name;
    if name != "" {
      var n := |name| - 1;
      assert name[n] in name;
      assert path[..|path| - 1] == front + "/" + name[..n];
      LastSegmentIs(front, name[..n]);
    }
  }

  /** The local root is the directory with the last name of the remote root, below the local
      parent. */
  lemma RootsAre(p: Platform, localParent: string, remoteRoot: string, front: string, name: string)
    requires Normalized(p, remoteRoot) == Some(front + "/" + name) && '/' !in name
    ensures RootsFor(p, localParent, remoteRoot) ==
      var local := LocalName(p, name);
      if 0 < |localParent| < MAX_PATH && local.Some? && |WithBackslash(localParent) + local.value| < MAX_PATH
      then Some(Roots(p, WithBackslash(localParent) + local.value, front + "/" + name)) else None
  {
    LastSegmentIs(front, name);
  }

  lemma RootIsPlaced(r: Roots)
    requires Normalized(r.platform, r.remote) == Some(r.remote)
    ensures NewItem(r, true, false, r.remote) == Some(Item(true, false, true, false, r.local, r.remote))
    ensures Placed(r, NewItem(r, true, false, r.remote).value)
  {
    assert StripSlashes(r.remote, |r.remote|) == r.remote;
    assert LocalSegments(r.platform, "") == Some([]);
    assert r.remote[|r.remote| - 1] != '/';
  }
}
