/** The plan of a recursive upload: a local tree turned into directories and files with remote
    paths, and the order in which the directories are created. */
module UploadPlan {
  import opened Operations
  import opened ListingOrder
  import RemotePaths

  datatype Item = Item(isDirectory: bool, localPath: string, remotePath: string)

  /** What the file system says of a name: `remoteName` is missing when it cannot be converted,
      `listed` and `finished` tell whether the directory could be listed to its end. */
  datatype Entry = Entry(
    localName: string, remoteName: Option<string>, isDirectory: bool, isReparsePoint: bool,
    listed: bool, finished: bool, children: seq<Entry>)


  // ---------- depth ----------

  /** The number of non-empty parts between slashes. */
  function Depth(path: string): nat {
    if path == "" then 0
    else
      var n := |path| - 1;
      Depth(path[..n]) + if path[n] != '/' && (n == 0 || path[n - 1] == '/') then 1 else 0
  }

  method RemotePathDepth(path: string) returns (depth: nat)
    ensures depth == Depth(path)
  {
    depth := 0;
    var inPart := false;
    for i := 0 to |path|
      invariant depth == Depth(path[..i])
      invariant inPart <==> i > 0 && path[i - 1] != '/'
    {
      assert path[..i + 1][..i] == path[..i];
      if path[i] == '/' {
        inPart := false;
      } else if !inPart {
        depth := depth + 1;
        inPart := true;
      }
    }
    assert path[..|path|] == path;
  }

  /** `child` is one name below `parent`. */
  predicate IsDirectlyBelow(parent: string, child: string) {
    var prefix := WithSlash(parent);
    |child| > |prefix| && child[..|prefix|] == prefix && '/' !in child[|prefix|..]
  }

  /** One slash at the end, and never a second one. */
  function WithSlash(parent: string): (r: string)
    ensures parent <= r && r != "" && r[|r| - 1] == '/'
    ensures |r| <= |parent| + 1 && (|r| > 1 && r[|r| - 2] == '/' ==> r == parent)
  {
    if parent != "" && parent[|parent| - 1] == '/' then parent else parent + "/"
  }

  lemma {:induction false} DepthOfName(prefix: string, name: string)
    requires prefix != "" && prefix[|prefix| - 1] == '/' && name != "" && '/' !in name
    ensures Depth(prefix + name) == Depth(prefix) + 1
  {
    var n := |name| - 1;
    var path := prefix + name;
    assert path[..|path| - 1] == prefix + name[..n];
    assert name[n] in name;
    if n > 0 {
      assert path[|path| - 2] == name[n - 1] && name[n - 1] in name;
      DepthOfName(prefix, name[..n]);
    } else {
      assert prefix + name[..n] == prefix;
    }
  }

  lemma ChildIsDeeper(parent: string, child: string)
    requires parent != "" && IsDirectlyBelow(parent, child)
    ensures Depth(child) == Depth(parent) + 1
  {
    var prefix := WithSlash(parent);
    if prefix != parent {
      assert prefix[..|prefix| - 1] == parent;
    }
    assert child == prefix + child[|prefix|..];
    DepthOfName(prefix, child[|prefix|..]);
  }

  // ---------- a stable sort by depth ----------

  ghost predicate SortedByDepth(s: seq<Item>) {
    forall i, j :: 0 <= i < j < |s| ==> Depth(s[i].remotePath) <= Depth(s[j].remotePath)
  }

  /** The items of one depth, in order. */
  ghost function AtDepth(s: seq<Item>, d: nat): seq<Item> {
    if s == [] then []
    else If(s[0], d) + AtDepth(s[1..], d)
  }

  ghost function If(item: Item, d: nat): seq<Item> {
    if Depth(item.remotePath) == d then [item] else []
  }

  lemma AtDepthOfFirst(item: Item, s: seq<Item>, d: nat)
    ensures AtDepth([item] + s, d) == If(item, d) + AtDepth(s, d)
  {
    assert ([item] + s)[1..] == s;
  }

  /** Sorted, with the items of every depth in their original order. */
  ghost predicate IsStableSortOf(t: seq<Item>, s: seq<Item>) {
    SortedByDepth(t) && forall d: nat :: AtDepth(t, d) == AtDepth(s, d)
  }

  function Insert(item: Item, s: seq<Item>): (r: seq<Item>)
    ensures |r| == |s| + 1
    ensures forall i :: 0 <= i < |r| ==> r[i] == item || r[i] in s
  {
    if s == [] then [item]
    else if Depth(item.remotePath) <= Depth(s[0].remotePath) then [item] + s
    else [s[0]] + Insert(item, s[1..])
  }

  function StableSort(s: seq<Item>): seq<Item> {
    if s == [] then [] else Insert(s[0], StableSort(s[1..]))
  }

  lemma SortedFromFirst(item: Item, s: seq<Item>)
    requires SortedByDepth(s) && forall i :: 0 <= i < |s| ==> Depth(item.remotePath) <= Depth(s[i].remotePath)
    ensures SortedByDepth([item] + s)
  {
  }

  lemma {:induction false} InsertIsSorted(item: Item, s: seq<Item>)
    requires SortedByDepth(s)
    ensures SortedByDepth(Insert(item, s))
  {
    if s == [] {
    } else if Depth(item.remotePath) <= Depth(s[0].remotePath) {
      SortedFromFirst(item, s);
    } else {
      InsertIsSorted(item, s[1..]);
      SortedFromFirst(s[0], Insert(item, s[1..]));
    }
  }

  lemma DifferentDepthsSwap(a: Item, b: Item, tail: seq<Item>, d: nat)
    requires Depth(a.remotePath) != Depth(b.remotePath)
    ensures If(a, d) + (If(b, d) + tail) == If(b, d) + (If(a, d) + tail)
  {
  }

  lemma {:induction false} InsertKeepsOrder(item: Item, s: seq<Item>, d: nat)
    ensures AtDepth(Insert(item, s), d) == If(item, d) + AtDepth(s, d)
  {
    if s == [] {
      AtDepthOfFirst(item, [], d);
      assert [item] + [] == [item];
    } else if Depth(item.remotePath) <= Depth(s[0].remotePath) {
      AtDepthOfFirst(item, s, d);
    } else {
      var first, tail := s[0], AtDepth(s[1..], d);
      InsertKeepsOrder(item, s[1..], d);
      AtDepthOfFirst(first, Insert(item, s[1..]), d);
      DifferentDepthsSwap(first, item, tail, d);
    }
  }

  lemma {:induction false} StableSortIsOne(s: seq<Item>)
    ensures IsStableSortOf(StableSort(s), s)
  {
    if s != [] {
      StableSortIsOne(s[1..]);
      InsertIsSorted(s[0], StableSort(s[1..]));
      forall d: nat ensures AtDepth(StableSort(s), d) == AtDepth(s, d) {
        InsertKeepsOrder(s[0], StableSort(s[1..]), d);
      }
    }
  }

  lemma {:induction false} InSomeDepth(s: seq<Item>, x: Item)
    ensures x in s <==> x in AtDepth(s, Depth(x.remotePath))
  {
    if s != [] {
      InSomeDepth(s[1..], x);
      assert s == [s[0]] + s[1..];
    }
  }

  lemma SameMembers(t: seq<Item>, s: seq<Item>)
    requires IsStableSortOf(t, s)
    ensures forall x :: x in t <==> x in s
  {
    forall x ensures x in t <==> x in s {
      InSomeDepth(t, x);
      InSomeDepth(s, x);
    }
  }

  lemma SameHead(t: seq<Item>, u: seq<Item>)
    requires SortedByDepth(t) && SortedByDepth(u) && (forall d: nat :: AtDepth(t, d) == AtDepth(u, d))
    requires t != []
    ensures u != [] && t[0] == u[0]
  {
    InSomeDepth(t, t[0]);
    InSomeDepth(u, t[0]);
    InSomeDepth(u, u[0]);
    InSomeDepth(t, u[0]);
    assert t[0] in t && t[0] in u && u[0] in u && u[0] in t;
    var d := Depth(t[0].remotePath);
    assert Depth(u[0].remotePath) == d;
    assert AtDepth(t, d)[0] == t[0] && AtDepth(u, d)[0] == u[0];
  }

  /** There is only one stable sort, however it is computed. */
  lemma {:induction false} StableSortIsUnique(t: seq<Item>, u: seq<Item>)
    requires SortedByDepth(t) && SortedByDepth(u) && (forall d: nat :: AtDepth(t, d) == AtDepth(u, d))
    ensures t == u
  {
    if t == [] {
      if u != [] {
        SameHead(u, t);
      }
    } else {
      SameHead(t, u);
      forall d: nat ensures AtDepth(t[1..], d) == AtDepth(u[1..], d) {
        var first := if Depth(t[0].remotePath) == d then [t[0]] else [];
        assert AtDepth(t, d) == first + AtDepth(t[1..], d);
        assert AtDepth(u, d) == first + AtDepth(u[1..], d);
        assert AtDepth(t[1..], d) == AtDepth(t, d)[|first|..];
      }
      StableSortIsUnique(t[1..], u[1..]);
    }
  }

  // ---------- the items of a tree ----------

  function FirstFile(items: seq<Item>): (i: nat)
    ensures i <= |items|
    ensures i < |items| ==> !items[i].isDirectory
    ensures forall j :: 0 <= j < i ==> items[j].isDirectory
  {
    if items == [] || !items[0].isDirectory then 0 else 1 + FirstFile(items[1..])
  }

  predicate Fits(localPath: string, remotePath: string) {
    0 < |localPath| < MAX_PATH && 0 < |remotePath| < MAX_PATH
  }

  function WithDirectory(items: seq<Item>, localPath: string, remotePath: string): Option<seq<Item>> {
    if !Fits(localPath, remotePath) then None
    else Some(Added(items, FirstFile(items), Item(true, localPath, remotePath)))
  }

  function WithFile(items: seq<Item>, localPath: string, remotePath: string): Option<seq<Item>> {
    if !Fits(localPath, remotePath) then None else Some(items + [Item(false, localPath, remotePath)])
  }

  function JoinRemotePath(parent: string, name: string): Option<string> {
    if parent == "" || |parent| >= MAX_PATH || name == "" then None
    else if |WithSlash(parent) + name| >= MAX_PATH then None
    else Some(WithSlash(parent) + name)
  }

  function JoinLocal(parent: string, name: string): Option<string> {
    var path := RemotePaths.WithBackslash(parent) + name;
    if |path| >= MAX_PATH then None else Some(path)
  }

  /** The plan after a directory and everything below it, or nothing when any part fails. */
  function WithTree(items: seq<Item>, local: string, remote: string, directory: Entry): Option<seq<Item>>
    decreases directory, 0
  {
    match WithDirectory(items, local, remote)
    case None => None
    case Some(more) =>
      if !directory.listed then None
      else
        match WithChildren(more, local, remote, directory, |directory.children|)
        case None => None
        case Some(all) => if directory.finished then Some(all) else None
  }

  /** The first `n` children of a directory. */
  function WithChildren(items: seq<Item>, local: string, remote: string, directory: Entry, n: nat): Option<seq<Item>>
    requires n <= |directory.children|
    decreases directory, 0, n
  {
    if n == 0 then Some(items)
    else
      match WithChildren(items, local, remote, directory, n - 1)
      case None => None
      case Some(before) => WithChild(before, local, remote, directory.children[n - 1])
  }

  function WithChild(items: seq<Item>, local: string, remote: string, child: Entry): Option<seq<Item>>
    decreases child, 1
  {
    if child.localName == "." || child.localName == ".." || child.isReparsePoint then Some(items)
    else
      var localPath := JoinLocal(local, child.localName);
      if localPath.None? || child.remoteName.None? then None
      else
        var remotePath := JoinRemotePath(remote, child.remoteName.value);
        if remotePath.None? then None
        else if child.isDirectory then WithTree(items, localPath.value, remotePath.value, child)
        else WithFile(items, localPath.value, remotePath.value)
  }

  predicate HaveArguments(localDirectory: string, remoteParent: string) {
    0 < |localDirectory| < MAX_PATH && 0 < |remoteParent| < MAX_PATH
  }

  /** A backslash at the end goes, but not that of a drive. */
  function RemoveBackslash(path: string): string {
    if |path| > 1 && path[|path| - 1] == '\\' && !(|path| == 3 && path[1] == ':') then path[..|path| - 1] else path
  }

  function Built(localDirectory: string, remoteParent: string, directory: Entry): Option<seq<Item>> {
    if !HaveArguments(localDirectory, remoteParent) then None
    else if !directory.isDirectory || directory.isReparsePoint || directory.remoteName.None? then None
    else
      match JoinRemotePath(remoteParent, directory.remoteName.value)
      case None => None
      case Some(remoteDirectory) => WithTree([], RemoveBackslash(localDirectory), remoteDirectory, directory)
  }

  /** No name holds a slash, anywhere in the tree. */
  ghost predicate IsTree(e: Entry) {
    && (e.remoteName.Some? ==> '/' !in e.remoteName.value)
    && forall i :: 0 <= i < |e.children| ==> IsTree(e.children[i])
  }

  ghost predicate HasDirectory(items: seq<Item>, path: string) {
    exists q :: 0 <= q < |items| && items[q].isDirectory && items[q].remotePath == path
  }

  ghost predicate IsUnder(items: seq<Item>, item: Item, parent: string) {
    parent != "" && HasDirectory(items, parent) && IsDirectlyBelow(parent, item.remotePath)
  }

  /** Directories come first, and each item but the top lies directly below a directory. */
  ghost predicate Planned(items: seq<Item>, top: string) {
    DirectoriesFirst(items) && forall k :: 0 <= k < |items| ==> HasPlace(items, items[k], top)
  }

  ghost predicate DirectoriesFirst(items: seq<Item>) {
    forall i, j :: 0 <= i < j < |items| && items[j].isDirectory ==> items[i].isDirectory
  }

  ghost predicate HasPlace(items: seq<Item>, item: Item, top: string) {
    item.remotePath == top || exists p :: IsUnder(items, item, p)
  }

  lemma JoinedIsBelow(parent: string, name: string)
    requires '/' !in name && JoinRemotePath(parent, name).Some?
    ensures IsDirectlyBelow(parent, JoinRemotePath(parent, name).value)
  {
    var prefix := WithSlash(parent);
    assert (prefix + name)[|prefix|..] == name;
  }

  function Added(items: seq<Item>, n: nat, item: Item): seq<Item>
    requires n <= |items|
  {
    items[..n] + [item] + items[n..]
  }

  ghost predicate MoreDirectories(items: seq<Item>, after: seq<Item>) {
    forall path :: HasDirectory(items, path) ==> HasDirectory(after, path)
  }

  lemma WhereTheyAre(items: seq<Item>, n: nat, item: Item)
    requires n <= |items|
    ensures |Added(items, n, item)| == |items| + 1 && Added(items, n, item)[n] == item
    ensures forall k :: 0 <= k < |items| ==> items[k] == Added(items, n, item)[if k < n then k else k + 1]
    ensures forall k :: 0 <= k <= |items| && k != n ==> Added(items, n, item)[k] == items[if k < n then k else k - 1]
  {
    var after := Added(items, n, item);
    forall k | 0 <= k < |items| ensures items[k] == after[if k < n then k else k + 1] { }
    forall k | 0 <= k <= |items| && k != n ensures after[k] == items[if k < n then k else k - 1] { }
  }

  lemma AddedKeepsDirectories(items: seq<Item>, n: nat, item: Item)
    requires n <= |items|
    ensures MoreDirectories(items, Added(items, n, item))
    ensures item.isDirectory ==> HasDirectory(Added(items, n, item), item.remotePath)
  {
    WhereTheyAre(items, n, item);
    forall path | HasDirectory(items, path) ensures HasDirectory(Added(items, n, item), path) {
      var q :| 0 <= q < |items| && items[q].isDirectory && items[q].remotePath == path;
      assert Added(items, n, item)[if q < n then q else q + 1] == items[q];
    }
  }

  lemma AddedKeepsShape(items: seq<Item>, n: nat, item: Item)
    requires DirectoriesFirst(items) && n <= |items|
    requires n == if item.isDirectory then FirstFile(items) else |items|
    ensures DirectoriesFirst(Added(items, n, item))
  {
    WhereTheyAre(items, n, item);
  }

  /** Adding an item below a directory of the plan keeps the plan in shape. */
  lemma OneMoreItem(items: seq<Item>, n: nat, item: Item, top: string, parent: string)
    requires Planned(items, top) && n <= |items|
    requires n == if item.isDirectory then FirstFile(items) else |items|
    requires item.remotePath == top || IsUnder(items, item, parent)
    ensures var after := Added(items, n, item);
      Planned(after, top) && MoreDirectories(items, after) && (item.isDirectory ==> HasDirectory(after, item.remotePath))
  {
    var after := Added(items, n, item);
    WhereTheyAre(items, n, item);
    AddedKeepsDirectories(items, n, item);
    AddedKeepsShape(items, n, item);
    forall k | 0 <= k < |after| ensures HasPlace(after, after[k], top) {
      if k == n {
        assert item.remotePath == top || IsUnder(after, item, parent);
      } else {
        StillHasPlace(items, after, if k < n then k else k - 1, top);
      }
    }
  }

  lemma StillHasPlace(items: seq<Item>, after: seq<Item>, i: nat, top: string)
    requires Planned(items, top) && MoreDirectories(items, after) && i < |items|
    ensures HasPlace(after, items[i], top)
  {
    assert HasPlace(items, items[i], top);
    if items[i].remotePath != top {
      var p :| IsUnder(items, items[i], p);
      assert IsUnder(after, items[i], p);
    }
  }

  lemma {:induction false} TreeIsPlanned(items: seq<Item>, local: string, remote: string, directory: Entry, top: string, parent: string)
    requires IsTree(directory) && Planned(items, top)
    requires remote == top || (parent != "" && HasDirectory(items, parent) && IsDirectlyBelow(parent, remote))
    requires WithTree(items, local, remote, directory).Some?
    ensures var after := WithTree(items, local, remote, directory).value;
      Planned(after, top) && HasDirectory(after, remote)
      && MoreDirectories(items, after)
    decreases directory, 0
  {
    OneMoreItem(items, FirstFile(items), Item(true, local, remote), top, parent);
    ChildrenArePlanned(WithDirectory(items, local, remote).value, local, remote, directory, |directory.children|, top);
  }

  lemma {:induction false} ChildrenArePlanned(items: seq<Item>, local: string, remote: string, directory: Entry, n: nat, top: string)
    requires IsTree(directory) && Planned(items, top) && HasDirectory(items, remote)
    requires n <= |directory.children| && WithChildren(items, local, remote, directory, n).Some?
    ensures var after := WithChildren(items, local, remote, directory, n).value;
      Planned(after, top) && MoreDirectories(items, after)
    decreases directory, 0, n
  {
    if n > 0 {
      ChildrenArePlanned(items, local, remote, directory, n - 1, top);
      ChildIsPlanned(WithChildren(items, local, remote, directory, n - 1).value, local, remote, directory.children[n - 1], top);
    }
  }

  lemma FileIsPlanned(items: seq<Item>, localPath: string, remotePath: string, top: string, parent: string)
    requires Planned(items, top) && IsUnder(items, Item(false, localPath, remotePath), parent)
    ensures var after := items + [Item(false, localPath, remotePath)];
      Planned(after, top) && MoreDirectories(items, after)
  {
    var item := Item(false, localPath, remotePath);
    OneMoreItem(items, |items|, item, top, parent);
    assert items + [item] == Added(items, |items|, item);
  }

  lemma {:induction false} ChildIsPlanned(items: seq<Item>, local: string, remote: string, child: Entry, top: string)
    requires IsTree(child) && Planned(items, top) && HasDirectory(items, remote)
    requires WithChild(items, local, remote, child).Some?
    ensures var after := WithChild(items, local, remote, child).value;
      Planned(after, top) && MoreDirectories(items, after)
    decreases child, 1
  {
    if child.localName != "." && child.localName != ".." && !child.isReparsePoint {
      var localPath := JoinLocal(local, child.localName).value;
      var remotePath := JoinRemotePath(remote, child.remoteName.value).value;
      JoinedIsBelow(remote, child.remoteName.value);
      if child.isDirectory {
        TreeIsPlanned(items, localPath, remotePath, child, top, remote);
      } else {
        FileIsPlanned(items, localPath, remotePath, top, remote);
      }
    }
  }

  function Directories(items: seq<Item>): seq<Item> {
    if items == [] then []
    else
      var n := |items| - 1;
      Directories(items[..n]) + if items[n].isDirectory then [items[n]] else []
  }

  lemma {:induction false} DirectoriesAre(items: seq<Item>, x: Item)
    ensures x in Directories(items) <==> x in items && x.isDirectory
  {
    if items != [] {
      DirectoriesAre(items[..|items| - 1], x);
      assert items == items[..|items| - 1] + [items[|items| - 1]];
    }
  }

  /** The directories of a plan are its first items, in the order in which they stand. */
  lemma {:induction false} DirectoriesAreFirst(items: seq<Item>)
    requires DirectoriesFirst(items)
    ensures Directories(items) <= items
    ensures forall k :: 0 <= k < |items| ==> (items[k].isDirectory <==> k < |Directories(items)|)
  {
    if items != [] {
      var n := |items| - 1;
      DirectoriesAreFirst(items[..n]);
      assert items == items[..n] + [items[n]];
    }
  }

  /** Every directory but the top comes after the directory it lies in. */
  ghost predicate ParentsFirst(order: seq<Item>, top: string) {
    forall k :: 0 <= k < |order| && order[k].remotePath != top ==>
      exists q :: 0 <= q < k && IsDirectlyBelow(order[q].remotePath, order[k].remotePath)
  }

  /** The order of creation: each directory of the plan once, parents first; and every file
      of the plan lies in one of them. */
  lemma ParentsAreCreatedFirst(local: string, remoteParent: string, directory: Entry)
    requires IsTree(directory) && Built(local, remoteParent, directory).Some?
    ensures var items := Built(local, remoteParent, directory).value;
      var order := StableSort(Directories(items));
      var top := JoinRemotePath(remoteParent, directory.remoteName.value).value;
      && IsStableSortOf(order, Directories(items)) && ParentsFirst(order, top)
      && Directories(items) <= items
      && (forall k :: 0 <= k < |items| ==> (items[k].isDirectory <==> k < |Directories(items)|))
      && (forall k :: 0 <= k < |items| && items[k].remotePath != top ==>
            exists q :: 0 <= q < |order| && IsDirectlyBelow(order[q].remotePath, items[k].remotePath))
  {
    var items := Built(local, remoteParent, directory).value;
    var top := JoinRemotePath(remoteParent, directory.remoteName.value).value;
    TreeIsPlanned([], RemoveBackslash(local), top, directory, top, "");
    StableSortIsOne(Directories(items));
    DirectoriesAreFirst(items);
    OrderOfPlan(items, StableSort(Directories(items)), top);
  }

  lemma OrderOfPlan(items: seq<Item>, order: seq<Item>, top: string)
    requires Planned(items, top) && IsStableSortOf(order, Directories(items))
    ensures ParentsFirst(order, top)
    ensures forall k :: 0 <= k < |items| && items[k].remotePath != top ==>
      exists q :: 0 <= q < |order| && IsDirectlyBelow(order[q].remotePath, items[k].remotePath)
  {
    SameMembers(order, Directories(items));
    forall x ensures x in order <==> x in items && x.isDirectory {
      DirectoriesAre(items, x);
    }
    forall k | 0 <= k < |items| && items[k].remotePath != top
      ensures exists q :: 0 <= q < |order| && IsDirectlyBelow(order[q].remotePath, items[k].remotePath)
    {
      var q := ParentInOrder(items, order, top, items[k]);
    }
    forall k | 0 <= k < |order| && order[k].remotePath != top
      ensures exists q :: 0 <= q < k && IsDirectlyBelow(order[q].remotePath, order[k].remotePath)
    {
      assert order[k] in order;
      var q := ParentInOrder(items, order, top, order[k]);
      ShallowerIsEarlier(order, q, k);
    }
  }

  lemma ShallowerIsEarlier(order: seq<Item>, q: nat, k: nat)
    requires SortedByDepth(order) && q < |order| && k < |order|
    requires order[q].remotePath != "" && IsDirectlyBelow(order[q].remotePath, order[k].remotePath)
    ensures q < k
  {
    ChildIsDeeper(order[q].remotePath, order[k].remotePath);
  }

  lemma ParentInOrder(items: seq<Item>, order: seq<Item>, top: string, item: Item) returns (q: nat)
    requires Planned(items, top) && item in items && item.remotePath != top
    requires forall x :: x in order <==> x in items && x.isDirectory
    ensures q < |order| && order[q].remotePath != "" && IsDirectlyBelow(order[q].remotePath, item.remotePath)
  {
    var k :| 0 <= k < |items| && items[k] == item;
    assert HasPlace(items, items[k], top);
    var p :| IsUnder(items, item, p);
    var i :| 0 <= i < |items| && items[i].isDirectory && items[i].remotePath == p;
    assert items[i] in order;
    q :| 0 <= q < |order| && order[q] == items[i];
  }

  class RemoteUploadPlan {
    var items: seq<Item>
    var targetPath: string

    constructor ()
      ensures items == [] && targetPath == ""
    {
      items, targetPath := [], "";
    }

    /** A plan that cannot be completed is left empty. The target path loses its slashes at
        the end, down to the root. */
    method Build(localDirectory: string, remoteParent: string, directory: Entry) returns (ok: bool)
      modifies this
      ensures ok == Built(localDirectory, remoteParent, directory).Some?
      ensures items == if ok then Built(localDirectory, remoteParent, directory).value else []
      ensures targetPath ==
        if HaveArguments(localDirectory, remoteParent) then RemotePaths.StripSlashes(remoteParent, 1) else ""
    {
      items, targetPath := [], "";
      if localDirectory == "" || |localDirectory| >= MAX_PATH || remoteParent == "" || |remoteParent| >= MAX_PATH {
        return false;
      }
      targetPath := remoteParent;
      while |targetPath| > 1 && targetPath[|targetPath| - 1] == '/'
        invariant items == []
        invariant RemotePaths.StripSlashes(targetPath, 1) == RemotePaths.StripSlashes(remoteParent, 1)
      {
        targetPath := targetPath[..|targetPath| - 1];
      }
      if !directory.isDirectory || directory.isReparsePoint || directory.remoteName.None? {
        return false;
      }
      var remoteDirectory := JoinRemotePath(remoteParent, directory.remoteName.value);
      if remoteDirectory.None? {
        return false;
      }
      ok := AddDirectoryRecursive(RemoveBackslash(localDirectory), remoteDirectory.value, directory);
      if !ok {
        items := [];
      }
    }

    method AddDirectory(localPath: string, remotePath: string) returns (ok: bool)
      modifies this`items
      ensures ok == WithDirectory(old(items), localPath, remotePath).Some?
      ensures items == if ok then WithDirectory(old(items), localPath, remotePath).value else old(items)
    {
      if localPath == "" || remotePath == "" || |localPath| >= MAX_PATH || |remotePath| >= MAX_PATH {
        return false;
      }
      var position := 0;
      while position < |items| && items[position].isDirectory
        invariant position <= |items|
        invariant forall j :: 0 <= j < position ==> items[j].isDirectory
      {
        position := position + 1;
      }
      var first := FirstFile(items);
      assert !(first < position) && !(position < first);
      items := items[..position] + [Item(true, localPath, remotePath)] + items[position..];
      ok := true;
    }

    method AddFile(localPath: string, remotePath: string) returns (ok: bool)
      modifies this`items
      ensures ok == WithFile(old(items), localPath, remotePath).Some?
      ensures items == if ok then WithFile(old(items), localPath, remotePath).value else old(items)
    {
      if localPath == "" || remotePath == "" || |localPath| >= MAX_PATH || |remotePath| >= MAX_PATH {
        return false;
      }
      items := items + [Item(false, localPath, remotePath)];
      ok := true;
    }

    method AddDirectoryRecursive(local: string, remote: string, directory: Entry) returns (ok: bool)
      modifies this`items
      ensures ok == WithTree(old(items), local, remote, directory).Some?
      ensures ok ==> items == WithTree(old(items), local, remote, directory).value
      decreases directory, 1
    {
      ok := AddDirectory(local, remote);
      if !ok || !directory.listed {
        return false;
      }
      ok := AddChildren(local, remote, directory);
      ok := ok && directory.finished;
    }

    method AddChildren(local: string, remote: string, directory: Entry) returns (ok: bool)
      modifies this`items
      ensures ok == WithChildren(old(items), local, remote, directory, |directory.children|).Some?
      ensures ok ==> items == WithChildren(old(items), local, remote, directory, |directory.children|).value
      decreases directory, 0
    {
      var i := 0;
      while i < |directory.children|
        invariant i <= |directory.children|
        invariant WithChildren(old(items), local, remote, directory, i) == Some(items)
      {
        ok := AddChild(local, remote, directory.children[i]);
        if !ok {
          NoneFromThere(old(items), local, remote, directory, i + 1, |directory.children|);
          return;
        }
        i := i + 1;
      }
      ok := true;
    }

    method AddChild(local: string, remote: string, child: Entry) returns (ok: bool)
      modifies this`items
      ensures ok == WithChild(old(items), local, remote, child).Some?
      ensures ok ==> items == WithChild(old(items), local, remote, child).value
      decreases child, 2
    {
      if child.localName == "." || child.localName == ".." || child.isReparsePoint {
        return true;
      }
      var localPath := JoinLocal(local, child.localName);
      if localPath.None? || child.remoteName.None? {
        return false;
      }
      var remotePath := JoinRemotePath(remote, child.remoteName.value);
      if remotePath.None? {
        return false;
      }
      if child.isDirectory {
        ok := AddDirectoryRecursive(localPath.value, remotePath.value, child);
      } else {
        ok := AddFile(localPath.value, remotePath.value);
      }
    }

    method GetDirectoryItems() returns (directories: seq<Item>)
      ensures directories == StableSort(Directories(items))
    {
      directories := [];
      for i := 0 to |items|
        invariant directories == Directories(items[..i])
      {
        assert items[..i + 1][..i] == items[..i];
        if items[i].isDirectory {
          directories := directories + [items[i]];
        }
      }
      assert items[..|items|] == items;
      directories := StableSort(directories);
    }
  }

  lemma {:induction false} NoneFromThere(items: seq<Item>, local: string, remote: string, directory: Entry, m: nat, n: nat)
    requires m <= n <= |directory.children| && WithChildren(items, local, remote, directory, m).None?
    ensures WithChildren(items, local, remote, directory, n).None?
    decreases n - m
  {
    if m < n {
      NoneFromThere(items, local, remote, directory, m + 1, n);
    }
  }
}
