/** The download plan and the scan that fills it. What the server lists, what the file system
    holds and whether a directory can be created are arbitrary at every call. */
module DownloadPlan {
  import opened Operations
  import opened ListingOrder
  import opened RemotePaths
  import opened DownloadItems
  import opened DownloadScan
  import opened DownloadListing
  import opened DownloadDirectories

  class RemoteDownloadPlan {
    var roots: Roots
    var items: seq<Item>
    var failures: seq<Failure>

    /** An empty plan; Build gives it its roots. */
    constructor (platform: Platform)
      ensures roots == Roots(platform, "", "") && items == [] && failures == []
    {
      roots := Roots(platform, "", "");
      items, failures := [], [];
    }

    ghost predicate Valid()
      reads this
    {
      ItemsOk(roots, items)
    }

    method AddItem(isDirectory: bool, isLink: bool, path: string) returns (ok: bool)
      modifies this`items
      ensures ok == NewItem(roots, isDirectory, isLink, path).Some?
      ensures items == old(items) + AsSeq(NewItem(roots, isDirectory, isLink, path))
    {
      if |path| >= MAX_PATH || !HasRemotePrefix(roots.remote, path) {
        return false;
      }
      var normalized := path;
      if isDirectory {
        while |normalized| > |roots.remote| && normalized[|normalized| - 1] == '/'
          invariant StripSlashes(normalized, |roots.remote|) == StripSlashes(path, |roots.remote|)
        {
          normalized := normalized[..|normalized| - 1];
        }
      }
      if !HasRemotePrefix(roots.remote, normalized) {
        return false;
      }
      var local := GetLocalPath(normalized);
      if local.None? {
        return false;
      }
      items := items + [Item(isDirectory, isLink, !isLink, !isDirectory, local.value, normalized)];
      ok := true;
    }

    method GetLocalPath(path: string) returns (local: Option<string>)
      ensures local == LocalPath(roots, path)
    {
      if |path| >= MAX_PATH || !HasRemotePrefix(roots.remote, path) {
        return None;
      }
      var segments := Some([]);
      if |path| > |roots.remote| {
        segments := SegmentsOf(path[|roots.remote| + 1..]);
      }
      if segments.None? {
        return None;
      }
      local := Join(segments.value);
    }

    method SegmentsOf(relative: string) returns (r: Option<seq<string>>)
      ensures r == LocalSegments(roots.platform, relative)
    {
      var segments: seq<string>, rest := [], relative;
      ghost var all := LocalSegments(roots.platform, relative);
      PrependNone(all);
      while rest != ""
        invariant all == Prepended(segments, LocalSegments(roots.platform, rest))
        decreases |rest|
      {
        FirstSegment(roots.platform, rest);
        var next := IndexOf(rest, '/');
        var name := LocalName(roots.platform, rest[..next]);
        if name.None? {
          return None;
        }
        rest := From(rest, next + 1);
        PrependTwice(segments, [name.value], LocalSegments(roots.platform, rest));
        segments := segments + [name.value];
      }
      assert segments + [] == segments;
      r := Some(segments);
    }

    method Join(segments: seq<string>) returns (local: Option<string>)
      ensures local == JoinLocalPath(roots.local, segments)
    {
      var current := roots.local;
      var i := 0;
      while i < |segments|
        invariant i <= |segments| && JoinLocalPath(roots.local, segments[..i]) == Some(current)
      {
        assert segments[..i + 1][..i] == segments[..i];
        if |current| + 1 + |segments[i]| >= MAX_PATH {
          JoinFailsOn(roots.local, segments, i + 1);
          return None;
        }
        current := current + "\\" + segments[i];
        i := i + 1;
      }
      assert segments[..i] == segments;
      local := Some(current);
    }

    method LocalPathTaken(localPath: string) returns (taken: bool)
      ensures taken == Collides(roots, items, localPath)
    {
      var j := 0;
      while j < |items|
        invariant j <= |items|
        invariant forall k :: 0 <= k < j ==> roots.platform.fold(items[k].localPath) != roots.platform.fold(localPath)
      {
        if roots.platform.fold(items[j].localPath) == roots.platform.fold(localPath) {
          return true;
        }
        j := j + 1;
      }
      taken := false;
    }

    /** `behind` is what the file system says of the local directory. */
    method ApplyRemoteDirectoryListing(path: string, files: seq<FtpFile>, behind: bool) returns (ok: bool)
      modifies this`items, this`failures
      ensures ok == Applied(roots, old(items), old(failures), path, files, behind).Some?
      ensures ok ==> (items, failures) == Applied(roots, old(items), old(failures), path, files, behind).value
      ensures !ok ==> items == old(items) && failures == old(failures)
      ensures ok ==> AppliedAccounts(roots, old(items), old(failures), path, files, behind, items, failures)
      ensures old(AllPlaced(roots, items) && NoneShadowed(roots, items)) ==>
        AllPlaced(roots, items) && NoneShadowed(roots, items)
    {
      AppliedIsAccounted(roots, items, failures, path, files, behind);
      if AllPlaced(roots, items) && NoneShadowed(roots, items) {
        AppliedKeepsItems(roots, items, failures, path, files, behind);
      }
      var normalized := Normalized(roots.platform, path);
      if normalized.None? || !HasRemotePrefix(roots.remote, normalized.value) {
        return false;
      }
      ok := true;
      var local := GetLocalPath(normalized.value);
      if local.None? {
        failures := failures + [DirectoryOutsideRoot];
      } else if behind {
        failures := failures + [DirectoryBehindReparsePoint];
      } else {
        ApplyEntries(normalized.value, files);
      }
    }

    method ApplyEntries(directory: string, files: seq<FtpFile>)
      modifies this`items, this`failures
      ensures (items, failures) == Listing(roots, old(items), old(failures), directory, files)
    {
      var i := 0;
      while i < |files|
        invariant i <= |files|
        invariant (items, failures) == Listing(roots, old(items), old(failures), directory, files[..i])
      {
        assert files[..i + 1][..i] == files[..i];
        ApplyEntry(directory, files[i]);
        i := i + 1;
      }
      assert files[..i] == files;
    }

    method ApplyEntry(directory: string, file: FtpFile)
      modifies this`items, this`failures
      ensures var (item, failure) := Entry(roots, old(items), directory, file);
        items == old(items) + AsSeq(item) && failures == old(failures) + AsSeq(failure)
    {
      var path, length := file.filePath, |directory|;
      if |path| <= length || path[..length] != directory || path[length] != '/' {
        failures := failures + [MalformedPath];
        return;
      }
      var child := path[length + 1..];
      if LocalName(roots.platform, child).None? {
        failures := failures + [MalformedName];
        return;
      }
      if file.fileType == LinkEntry {
        failures := failures + [SymbolicLink];
        return;
      }
      if file.fileType == UnknownEntry {
        failures := failures + [UnknownItem];
        return;
      }
      AddChild(file.fileType == DirectoryEntry, directory + "/" + child);
    }

    method AddChild(isDirectory: bool, remotePath: string)
      modifies this`items, this`failures
      ensures var (item, failure) := Child(roots, old(items), isDirectory, remotePath);
        items == old(items) + AsSeq(item) && failures == old(failures) + AsSeq(failure)
    {
      var localPath := GetLocalPath(remotePath);
      if localPath.None? {
        failures := failures + [PathOutsideRoot];
        return;
      }
      var duplicate := LocalPathTaken(localPath.value);
      var added := AddItem(isDirectory, false, remotePath);
      if !added {
        failures := failures + [PathOutsideRoot];
        return;
      }
      if duplicate {
        items := items[|items| - 1 := items[|items| - 1].(selected := false)];
        failures := failures + [NameConflict];
      }
    }

    /** The plan of a remote directory starts with the directory itself. `usable` and
        `behind` are what the file system says of the local parent and of the local root. */
    method Build(localParent: string, remoteRoot: string, usable: bool, behind: bool) returns (ok: bool)
      modifies this
      ensures var built := RootsFor(old(roots.platform), localParent, remoteRoot);
        && ok == (built.Some? && usable && !behind)
        && (ok ==> roots == built.value && items == [Item(true, false, true, false, roots.local, roots.remote)])
      ensures failures == [] && (ok ==> Valid()) && (!ok ==> items == [])
    {
      items, failures := [], [];
      roots := roots.(local := "", remote := "");
      if localParent == "" || |localParent| >= MAX_PATH {
        return false;
      }
      var remote := Normalized(roots.platform, remoteRoot);
      if remote.None? || !usable {
        return false;
      }
      var name := LocalName(roots.platform, LastSegment(remote.value));
      if name.None? || |WithBackslash(localParent) + name.value| >= MAX_PATH || behind {
        return false;
      }
      RootsAreNormalized(roots.platform, localParent, remoteRoot);
      AddRoot(WithBackslash(localParent) + name.value, remote.value);
      ok := true;
    }

    method AddRoot(local: string, remote: string)
      requires items == [] && failures == [] && Normalized(roots.platform, remote) == Some(remote)
      modifies this
      ensures roots == old(roots).(local := local, remote := remote) && failures == []
      ensures items == [Item(true, false, true, false, local, remote)] && Valid()
    {
      roots := roots.(local := local, remote := remote);
      RootIsPlaced(roots);
      var added := AddItem(true, false, remote);
    }

    // ---------- scanning ----------

    /** The server may answer anything, and differently each time. */
    method GetDir(path: string) returns (ok: bool, files: seq<FtpFile>)
    {
      ok, files := *, *;
    }

    method FileSystemSays() returns (answer: bool)
    {
      answer := *;
    }

    /** The scan has passed every directory before index `i`. */
    ghost predicate ScannedUpTo(i: nat)
      reads this
    {
      Valid() && AllScanned(items, i)
    }

    ghost function RankFrom(i: nat): ORDINAL
      reads this
      requires i <= |items|
    {
      Rank(PendingLengths(items[i..]))
    }

    /** One listing: afterwards directory `i` is scanned, and what is pending has lower rank. */
    method ScanDirectory(i: nat) returns (ok: bool, ghost answer: Answer)
      requires ScannedUpTo(i) && i < |items| && IsPending(items[i])
      modifies this`items, this`failures
      ensures Valid() && |items| >= |old(items)| && answer.index == i
      ensures ok ==> ScannedUpTo(i + 1) && RankFrom(i + 1) < old(RankFrom(i))
      ensures ok ==> Some((items, failures)) == ScanStep(roots, old(items), old(failures), answer)
      ensures !ok ==> items == old(items) && failures == old(failures)
    {
      ghost var before, log := items, failures;
      answer := Answer(i, [], false);
      var listed, files := GetDir(items[i].remotePath);
      if !listed {
        return false, answer;
      }
      var behind := FileSystemSays();
      ok := ApplyRemoteDirectoryListing(items[i].remotePath, files, behind);
      if !ok {
        return;
      }
      answer := Answer(i, files, behind);
      ghost var after := items;
      AppliedListing(roots, before, i, log, files, behind, after);
      items := items[i := items[i].(scanned := true)];
      assert AllScanned(items, i + 1);
      RankFalls(roots, before, i, after, items);
    }

    /** Asks for every pending directory, in the order of a list that grows meanwhile. Ends
        for every server; on success no directory is left pending. */
    method Perform() returns (ok: bool, ghost answers: seq<Answer>)
      requires Valid()
      modifies this`items, this`failures
      ensures Valid()
      ensures ok ==> AllScanned(items, |items|)
      ensures Ascending(answers, |items|) && ScanIsComplete(roots, old(items), items, answers)
      ensures Some((items, failures)) == ScanSteps(roots, old(items), old(failures), answers)
    {
      var connected := FileSystemSays();
      if !connected {
        NothingAnswered(roots, items);
        return false, [];
      }
      ok, answers := Scan();
    }

    method Scan() returns (ok: bool, ghost answers: seq<Answer>)
      requires Valid()
      modifies this`items, this`failures
      ensures Valid()
      ensures ok ==> AllScanned(items, |items|)
      ensures Ascending(answers, |items|) && ScanIsComplete(roots, old(items), items, answers)
      ensures Some((items, failures)) == ScanSteps(roots, old(items), old(failures), answers)
    {
      ok, answers := ScanItems();
      AnswersAreComplete(roots, old(items), old(failures), answers, items, failures);
    }

    method ScanItems() returns (ok: bool, ghost answers: seq<Answer>)
      requires Valid()
      modifies this`items, this`failures
      ensures Valid()
      ensures ok ==> AllScanned(items, |items|)
      ensures Ascending(answers, |items|)
      ensures Some((items, failures)) == ScanSteps(roots, old(items), old(failures), answers)
    {
      var i := 0;
      ok, answers := true, [];
      while ok && i < |items|
        invariant Valid()
        invariant ok ==> AllScanned(items, i)
        invariant i <= |items| && Ascending(answers, i)
        invariant Some((items, failures)) == ScanSteps(roots, old(items), old(failures), answers)
        decreases ok, if ok then RankFrom(i) else 0, |items| - i
      {
        ghost var more;
        ok, more := ScanNext(i, old(items), old(failures), answers);
        answers := more;
        i := i + 1;
      }
    }

    method ScanNext(i: nat, ghost first: seq<Item>, ghost log: seq<Failure>, ghost answers: seq<Answer>)
      returns (ok: bool, ghost more: seq<Answer>)
      requires ScannedUpTo(i) && i < |items| && Ascending(answers, i)
      requires Some((items, failures)) == ScanSteps(roots, first, log, answers)
      modifies this`items, this`failures
      ensures Valid() && i < |items| && Ascending(more, i + 1)
      ensures ok ==> ScannedUpTo(i + 1)
      ensures ok ==> RankFrom(i + 1) < old(RankFrom(i)) || (RankFrom(i + 1) == old(RankFrom(i)) && |items| == old(|items|))
      ensures Some((items, failures)) == ScanSteps(roots, first, log, more)
    {
      if IsPending(items[i]) {
        ok, more := ScanPending(i, first, log, answers);
      } else {
        PassedOver(items, i);
        AscendsFurther(answers, i);
        ok, more := true, answers;
      }
    }

    method ScanPending(i: nat, ghost first: seq<Item>, ghost log: seq<Failure>, ghost answers: seq<Answer>)
      returns (ok: bool, ghost more: seq<Answer>)
      requires ScannedUpTo(i) && i < |items| && IsPending(items[i]) && Ascending(answers, i)
      requires Some((items, failures)) == ScanSteps(roots, first, log, answers)
      modifies this`items, this`failures
      ensures Valid() && i < |items| && Ascending(more, i + 1)
      ensures ok ==> ScannedUpTo(i + 1) && RankFrom(i + 1) < old(RankFrom(i))
      ensures Some((items, failures)) == ScanSteps(roots, first, log, more)
    {
      ghost var answer;
      ok, answer := ScanDirectory(i);
      AscendsFurther(answers, i);
      OneMoreStep(roots, first, log, answers, answer);
      more := if ok then answers + [answer] else answers;
    }

    // ---------- local directories ----------

    /** What the file system holds under a local path. */
    method BlockedBy(path: string) returns (block: Block)
    {
      block := *;
    }

    method DeselectFrom(i: nat)
      requires i < |items|
      modifies this`items
      ensures items == Deselected(old(items), i)
    {
      ghost var target := Deselected(items, i);
      var top, j := items[i].localPath, i;
      while j < |items|
        invariant i <= j <= |items| == |target|
        invariant forall k :: 0 <= k < j ==> items[k] == target[k]
        invariant forall k :: j <= k < |items| ==> items[k] == old(items)[k]
      {
        if IsInsideRoot(top, items[j].localPath) {
          items := items[j := items[j].(selected := false)];
        }
        j := j + 1;
      }
    }

    /** Creates the selected directories. `created` holds the local paths that now exist,
        `failed` the indices of the directories that could not be created, `blocked` those of
        the files whose local path is taken. */
    method PrepareLocalDirectories() returns (ghost created: set<string>, ghost failed: set<nat>, ghost blocked: set<nat>)
      requires Valid()
      modifies this`items, this`failures
      ensures Valid()
      ensures DirectoriesExist(items, |items|, created)
      ensures Remaining(old(items), items, failed, blocked) && HaveFailed(old(items), failed)
      ensures forall k :: k in blocked ==> k < |items| && !items[k].isDirectory
      ensures |failures| == |old(failures)| + |failed| + |blocked|
    {
      created, failed := CreateDirectories();
      blocked := CheckFiles(old(items), created, failed);
    }

    method CreateDirectories() returns (ghost created: set<string>, ghost failed: set<nat>)
      requires Valid()
      modifies this`items, this`failures
      ensures Valid()
      ensures DirectoriesExist(items, |items|, created)
      ensures Remaining(old(items), items, failed, {}) && HaveFailed(old(items), failed)
      ensures |failures| == |old(failures)| + |failed|
    {
      var i := 0;
      created, failed := {}, {};
      while i < |items|
        invariant i <= |items| && Created(roots, old(items), items, i, created, failed)
        invariant |failures| == |old(failures)| + |failed|
      {
        created, failed := CreateDirectory(i, old(items), created, failed);
        i := i + 1;
      }
    }

    method CreateDirectory(i: nat, ghost first: seq<Item>, ghost created: set<string>, ghost failed: set<nat>)
      returns (ghost more: set<string>, ghost gone: set<nat>)
      requires Created(roots, first, items, i, created, failed) && i < |items|
      modifies this`items, this`failures
      ensures Created(roots, first, items, i + 1, more, gone) && |items| == |old(items)|
      ensures |failures| - |gone| == |old(failures)| - |failed|
    {
      more, gone := created, failed;
      DirectoryPassed(roots, first, items, i, created, failed);
      if items[i].selected && items[i].isDirectory {
        var made := FileSystemSays();
        if made {
          more := created + {items[i].localPath};
        } else {
          DirectoryFails(i, first, created, failed);
          gone := failed + {i};
        }
      }
    }

    method DirectoryFails(i: nat, ghost first: seq<Item>, ghost created: set<string>, ghost failed: set<nat>)
      requires Created(roots, first, items, i, created, failed)
      requires i < |items| && items[i].selected && items[i].isDirectory
      modifies this`items, this`failures
      ensures Created(roots, first, items, i + 1, created, failed + {i}) && i !in failed
      ensures |items| == |old(items)| && |failures| == |old(failures)| + 1
    {
      DirectoryFailed(roots, first, items, i, created, failed);
      failures := failures + [FileBlocksDirectory(items[i].localPath)];
      DeselectFrom(i);
    }

    method CheckFiles(ghost first: seq<Item>, ghost created: set<string>, ghost failed: set<nat>) returns (ghost blocked: set<nat>)
      requires Checked(roots, first, items, 0, created, failed, {})
      modifies this`items, this`failures
      ensures Checked(roots, first, items, |items|, created, failed, blocked)
      ensures |failures| == |old(failures)| + |blocked|
    {
      var i := 0;
      blocked := {};
      while i < |items|
        invariant Checked(roots, first, items, i, created, failed, blocked)
        invariant |failures| == |old(failures)| + |blocked|
      {
        blocked := CheckFile(i, first, created, failed, blocked);
        i := i + 1;
      }
    }

    method CheckFile(i: nat, ghost first: seq<Item>, ghost created: set<string>, ghost failed: set<nat>, ghost blocked: set<nat>)
      returns (ghost more: set<nat>)
      requires Checked(roots, first, items, i, created, failed, blocked) && i < |items|
      modifies this`items, this`failures
      ensures Checked(roots, first, items, i + 1, created, failed, more) && |items| == |old(items)|
      ensures |failures| - |more| == |old(failures)| - |blocked|
    {
      more := blocked;
      FilePassed(roots, first, items, i, created, failed, blocked);
      if items[i].selected && !items[i].isDirectory {
        var path := items[i].localPath;
        var block := BlockedBy(path);
        if block != Nothing {
          failures := failures + [if block == ReparsePoint then ReparsePointBlocksFile(path) else DirectoryBlocksFile(path)];
          FileBlocked(roots, first, items, i, created, failed, blocked);
          items := items[i := items[i].(selected := false)];
          more := blocked + {i};
        }
      }
    }
  }
}
