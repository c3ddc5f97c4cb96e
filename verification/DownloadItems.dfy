/** What one listing adds to a download plan, and what stays true of its items. */
module DownloadItems {
  import opened Operations
  import opened ListingOrder
  import opened RemotePaths

  datatype Item = Item(
    isDirectory: bool, isLink: bool, selected: bool, scanned: bool,
    localPath: string, remotePath: string)

  datatype FileType = FileEntry | DirectoryEntry | LinkEntry | UnknownEntry

  datatype FtpFile = FtpFile(filePath: string, fileType: FileType)

  datatype Failure =
    | DirectoryOutsideRoot | DirectoryBehindReparsePoint
    | MalformedPath | MalformedName | SymbolicLink | UnknownItem | PathOutsideRoot | NameConflict
    | FileBlocksDirectory(path: string) | ReparsePointBlocksFile(path: string) | DirectoryBlocksFile(path: string)

  datatype Roots = Roots(platform: Platform, local: string, remote: string)

  function LocalPath(r: Roots, path: string): Option<string> {
    LocalPathOf(r.platform, r.local, r.remote, path)
  }

  function Normalized(p: Platform, path: string): Option<string> {
    if path == "" || path[0] != '/' || |path| >= MAX_PATH then None
    else
      var stripped := StripSlashes(path, 1);
      if stripped == "/" || LocalSegments(p, stripped[1..]).None? then None else Some(stripped)
  }

  function NewItem(r: Roots, isDirectory: bool, isLink: bool, path: string): Option<Item> {
    if |path| >= MAX_PATH || !HasRemotePrefix(r.remote, path) then None
    else
      var normalized := if isDirectory then StripSlashes(path, |r.remote|) else path;
      if !HasRemotePrefix(r.remote, normalized) then None
      else
        match LocalPath(r, normalized)
        case None => None
        case Some(local) => Some(Item(isDirectory, isLink, !isLink, !isDirectory, local, normalized))
  }

  function LastSegment(path: string): string {
    if path == "" || path[|path| - 1] == '/' then "" else LastSegment(path[..|path| - 1]) + [path[|path| - 1]]
  }

  /** The roots of a plan for a remote directory below a local one. */
  function RootsFor(p: Platform, localParent: string, remoteRoot: string): Option<Roots> {
    if localParent == "" || |localParent| >= MAX_PATH then None
    else
      match Normalized(p, remoteRoot)
      case None => None
      case Some(remote) =>
        var name := LocalName(p, LastSegment(remote));
        if name.None? || |WithBackslash(localParent) + name.value| >= MAX_PATH then None
        else Some(Roots(p, WithBackslash(localParent) + name.value, remote))
  }

  predicate Collides(r: Roots, items: seq<Item>, localPath: string) {
    exists j :: 0 <= j < |items| && r.platform.fold(items[j].localPath) == r.platform.fold(localPath)
  }

  /** One entry of a listing: the item it adds, or why it adds none, or both when its name
      is taken. */
  function Entry(r: Roots, items: seq<Item>, directory: string, file: FtpFile): (Option<Item>, Option<Failure>) {
    var path := file.filePath;
    if |path| <= |directory| || path[..|directory|] != directory || path[|directory|] != '/' then (None, Some(MalformedPath))
    else
      var child := path[|directory| + 1..];
      if LocalName(r.platform, child).None? then (None, Some(MalformedName))
      else if file.fileType == LinkEntry then (None, Some(SymbolicLink))
      else if file.fileType == UnknownEntry then (None, Some(UnknownItem))
      else Child(r, items, file.fileType == DirectoryEntry, directory + "/" + child)
  }

  function Child(r: Roots, items: seq<Item>, isDirectory: bool, remotePath: string): (Option<Item>, Option<Failure>) {
    var local := LocalPath(r, remotePath);
    var item := NewItem(r, isDirectory, false, remotePath);
    if local.None? || item.None? then (None, Some(PathOutsideRoot))
    else if Collides(r, items, local.value) then (Some(item.value.(selected := false)), Some(NameConflict))
    else (item, None)
  }

  function AsSeq<T>(o: Option<T>): seq<T> {
    if o.Some? then [o.value] else []
  }

  /** The items and failures after a whole listing. */
  function Listing(r: Roots, items: seq<Item>, failures: seq<Failure>, directory: string, files: seq<FtpFile>)
    : (seq<Item>, seq<Failure>)
    decreases |files|
  {
    if files == [] then (items, failures)
    else
      var n := |files| - 1;
      var (i, f) := Listing(r, items, failures, directory, files[..n]);
      var (item, failure) := Entry(r, i, directory, files[n]);
      (i + AsSeq(item), f + AsSeq(failure))
  }

  // ---------- what stays true ----------

  ghost predicate Placed(r: Roots, item: Item) {
    && |item.remotePath| < MAX_PATH && LocalPath(r, item.remotePath) == Some(item.localPath)
    && (item.isDirectory ==> item.remotePath != "" && item.remotePath[|item.remotePath| - 1] != '/')
  }

  ghost predicate AllPlaced(r: Roots, items: seq<Item>) {
    forall i :: 0 <= i < |items| ==> Placed(r, items[i])
  }

  /** Of items whose local paths are equal up to case only the first can be selected. */
  ghost predicate NoneShadowed(r: Roots, items: seq<Item>) {
    forall i, j ::
      0 <= i < j < |items| && r.platform.fold(items[i].localPath) == r.platform.fold(items[j].localPath) ==>
        !items[j].selected
  }

  ghost predicate IsNew(r: Roots, directory: string, localDirectory: string, item: Item) {
    && Placed(r, item) && !item.isLink && item.scanned == !item.isDirectory
    && IsChildPath(directory, item.remotePath)
    && IsChildLocalPath(localDirectory, item.localPath) && '\\' !in item.localPath[|localDirectory| + 1..]
  }

  ghost predicate IsDirectoryPath(r: Roots, directory: string) {
    HasRemotePrefix(r.remote, directory) && directory != "" && directory[|directory| - 1] != '/'
    && LocalPath(r, directory).Some?
  }

  lemma ChildPathShape(r: Roots, directory: string, child: string, name: string)
    requires LocalName(r.platform, child) == Some(name)
    ensures var path := directory + "/" + child;
      && IsChildPath(directory, path) && path[|path| - 1] != '/'
      && StripSlashes(path, |r.remote|) == path
  {
    var path := directory + "/" + child;
    assert path[|path| - 1] == child[|child| - 1] && child[|child| - 1] in child;
  }

  lemma ChildLocalShape(local: string, name: string)
    requires IsLocalNameValid(name)
    ensures var path := local + "\\" + name;
      IsChildLocalPath(local, path) && '\\' !in path[|local| + 1..]
  {
    var path := local + "\\" + name;
    assert path[|local| + 1..] == name;
    assert "\\/:*?\"<>|"[0] == '\\';
  }

  /** An item made from a directory and one name is a child of the directory. */
  lemma NewChild(r: Roots, directory: string, isDirectory: bool, child: string)
    requires IsDirectoryPath(r, directory) && LocalName(r.platform, child).Some?
    ensures var item := NewItem(r, isDirectory, false, directory + "/" + child);
      item.Some? ==> IsNew(r, directory, LocalPath(r, directory).value, item.value)
  {
    var item := NewItem(r, isDirectory, false, directory + "/" + child);
    if item.Some? {
      var name := LocalName(r.platform, child).value;
      ChildPathShape(r, directory, child, name);
      ChildLocalPath(r.platform, r.local, r.remote, directory, child, name);
      ChildLocalShape(LocalPath(r, directory).value, name);
    }
  }

  predicate Unclaimed(r: Roots, items: seq<Item>, item: Item) {
    item.selected ==> !Collides(r, items, item.localPath)
  }

  lemma NewItemPath(r: Roots, isDirectory: bool, path: string)
    requires path != "" && path[|path| - 1] != '/'
    ensures var item := NewItem(r, isDirectory, false, path);
      item.Some? ==> LocalPath(r, path) == Some(item.value.localPath) && item.value.selected
  {
    assert StripSlashes(path, |r.remote|) == path;
  }

  lemma ChildIsNew(r: Roots, items: seq<Item>, directory: string, isDirectory: bool, child: string)
    requires IsDirectoryPath(r, directory) && LocalName(r.platform, child).Some?
    ensures var item := Child(r, items, isDirectory, directory + "/" + child).0;
      item.Some? ==> IsNew(r, directory, LocalPath(r, directory).value, item.value) && Unclaimed(r, items, item.value)
  {
    var path := directory + "/" + child;
    NewChild(r, directory, isDirectory, child);
    ChildPathShape(r, directory, child, LocalName(r.platform, child).value);
    NewItemPath(r, isDirectory, path);
    var item := NewItem(r, isDirectory, false, path);
    if item.Some? {
      UnselectedIsNew(r, directory, LocalPath(r, directory).value, item.value);
    }
  }

  lemma UnselectedIsNew(r: Roots, directory: string, localDirectory: string, item: Item)
    requires IsNew(r, directory, localDirectory, item)
    ensures IsNew(r, directory, localDirectory, item.(selected := false))
  {
  }

  lemma EntryIsNew(r: Roots, items: seq<Item>, directory: string, file: FtpFile)
    requires IsDirectoryPath(r, directory)
    ensures var item := Entry(r, items, directory, file).0;
      item.Some? ==> IsNew(r, directory, LocalPath(r, directory).value, item.value) && Unclaimed(r, items, item.value)
  {
    var item := Entry(r, items, directory, file).0;
    if item.Some? {
      ChildIsNew(r, items, directory, file.fileType == DirectoryEntry, file.filePath[|directory| + 1..]);
    }
  }

  /** A listing appends children of the directory and keeps every property of the items. */
  lemma {:induction false} ListingAppends(r: Roots, items: seq<Item>, failures: seq<Failure>, directory: string, files: seq<FtpFile>)
    requires IsDirectoryPath(r, directory)
    ensures var (after, _) := Listing(r, items, failures, directory, files);
      && items <= after
      && (forall k :: |items| <= k < |after| ==> IsNew(r, directory, LocalPath(r, directory).value, after[k]))
      && (AllPlaced(r, items) ==> AllPlaced(r, after))
      && (NoneShadowed(r, items) ==> NoneShadowed(r, after))
    decreases |files|
  {
    if files != [] {
      var n := |files| - 1;
      ListingAppends(r, items, failures, directory, files[..n]);
      var (before, f) := Listing(r, items, failures, directory, files[..n]);
      EntryIsNew(r, before, directory, files[n]);
      var item := Entry(r, before, directory, files[n]).0;
      AppendKeeps(r, before, item);
    }
  }

  lemma AppendKeeps(r: Roots, items: seq<Item>, item: Option<Item>)
    requires item.Some? ==> Placed(r, item.value)
    requires item.Some? && item.value.selected ==> !Collides(r, items, item.value.localPath)
    ensures AllPlaced(r, items) ==> AllPlaced(r, items + AsSeq(item))
    ensures NoneShadowed(r, items) ==> NoneShadowed(r, items + AsSeq(item))
  {
  }

  lemma SelectedPathsDiffer(r: Roots, items: seq<Item>)
    requires NoneShadowed(r, items) && AllPlaced(r, items)
    ensures forall i, j :: 0 <= i < |items| && 0 <= j < |items| && i != j && items[i].selected && items[j].selected ==>
      r.platform.fold(items[i].localPath) != r.platform.fold(items[j].localPath)
    ensures forall i :: 0 <= i < |items| ==> IsInsideRoot(r.local, items[i].localPath)
  {
    forall i | 0 <= i < |items| ensures IsInsideRoot(r.local, items[i].localPath) {
      assert Placed(r, items[i]);
      LocalPathIsInsideRoot(r.platform, r.local, r.remote, items[i].remotePath);
    }
  }

  // ---------- parents ----------

  /** `a` is the selected directory directly above `b`. */
  predicate IsParent(a: Item, b: Item) {
    && a.isDirectory && a.selected
    && IsChildLocalPath(a.localPath, b.localPath) && '\\' !in b.localPath[|a.localPath| + 1..]
  }

  ghost predicate HasParent(items: seq<Item>, k: nat)
    requires k < |items|
  {
    exists q :: 0 <= q < k && IsParent(items[q], items[k])
  }

  /** Every item but the root has its directory before it, selected, if it is selected itself. */
  ghost predicate Parented(r: Roots, items: seq<Item>) {
    && (items != [] ==> items[0].localPath == r.local)
    && forall k {:trigger HasParent(items, k)} :: 0 < k < |items| && items[k].selected ==> HasParent(items, k)
  }

  /** `path` is `ancestor`, a separator, and more. */
  predicate IsAncestor(ancestor: string, path: string) {
    |ancestor| < |path| && path[..|ancestor|] == ancestor && path[|ancestor|] == '\\'
  }

  lemma NoSeparatorAfter(path: string, n: nat, m: nat)
    ensures n <= m < |path| && '\\' !in path[n..] ==> path[m] != '\\'
  {
    if n <= m < |path| {
      assert path[n..][m - n] == path[m];
    }
  }

  /** Whatever lies between the root and a selected item is a selected directory. */
  lemma {:induction false} AncestorsAreSelected(r: Roots, items: seq<Item>, k: nat, ancestor: string) returns (q: nat)
    requires Parented(r, items) && k < |items| && items[k].selected
    requires IsInsideRoot(r.local, ancestor) && IsAncestor(ancestor, items[k].localPath)
    ensures q < k && items[q].isDirectory && items[q].selected && items[q].localPath == ancestor
  {
    assert k > 0;
    assert HasParent(items, k);
    q :| 0 <= q < k && IsParent(items[q], items[k]);
    var parent, path := items[q].localPath, items[k].localPath;
    NoSeparatorAfter(path, |parent| + 1, |ancestor|);
    assert |ancestor| <= |parent|;
    if |ancestor| < |parent| {
      assert parent == path[..|parent|];
      assert parent[..|ancestor|] == ancestor && parent[|ancestor|] == '\\';
      q := AncestorsAreSelected(r, items, q, ancestor);
    } else {
      assert ancestor == path[..|parent|] == parent;
    }
  }
}
