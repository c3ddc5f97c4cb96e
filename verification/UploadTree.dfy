/** An upload plan holds exactly the local tree: every entry that is reached, once, under the
    paths its names spell. */
module UploadTree {
  import opened Operations
  import opened ListingOrder
  import opened UploadPlan
  import RemotePaths

  /** A place in a tree: which child to take at each directory on the way down. */
  type Place = seq<nat>

  /** The entry is one that an upload takes. */
  predicate IsTaken(e: Entry) {
    e.localName != "." && e.localName != ".." && !e.isReparsePoint
  }

  /** The place is reached through directories, by entries that are taken. */
  predicate IsReached(top: Entry, place: Place)
    decreases |place|
  {
    place == []
    || (top.isDirectory && place[0] < |top.children| && IsTaken(top.children[place[0]])
        && IsReached(top.children[place[0]], place[1..]))
  }

  function EntryAt(top: Entry, place: Place): Entry
    requires IsReached(top, place)
    decreases |place|
  {
    if place == [] then top else EntryAt(top.children[place[0]], place[1..])
  }

  function RemoteName(e: Entry): string {
    if e.remoteName.Some? then e.remoteName.value else ""
  }

  /** The local path of the top, followed by the names on the way. */
  function LocalAt(local: string, top: Entry, place: Place): string
    requires IsReached(top, place)
    decreases |place|
  {
    if place == [] then local
    else
      var child := top.children[place[0]];
      LocalAt(RemotePaths.WithBackslash(local) + child.localName, child, place[1..])
  }

  function RemoteAt(remote: string, top: Entry, place: Place): string
    requires IsReached(top, place)
    decreases |place|
  {
    if place == [] then remote
    else
      var child := top.children[place[0]];
      RemoteAt(WithSlash(remote) + RemoteName(child), child, place[1..])
  }

  function ItemAt(local: string, remote: string, top: Entry, place: Place): Item
    requires IsReached(top, place)
  {
    Item(EntryAt(top, place).isDirectory, LocalAt(local, top, place), RemoteAt(remote, top, place))
  }

  /** The order in which a walk of the tree meets two places. */
  predicate Before(p: Place, q: Place) {
    q != [] && (p == [] || p[0] < q[0] || (p[0] == q[0] && Before(p[1..], q[1..])))
  }

  ghost predicate InOrder(places: seq<Place>) {
    forall i, j :: 0 <= i < j < |places| ==> Before(places[i], places[j])
  }

  lemma {:induction false} BeforeIsIrreflexive(p: Place)
    ensures !Before(p, p)
  {
    if p != [] {
      BeforeIsIrreflexive(p[1..]);
    }
  }

  // ---------- the places of one kind ----------

  /** The directories, or the files, among the places below the first `n` children. */
  ghost predicate IsChosen(top: Entry, place: Place, directories: bool, n: nat) {
    IsReached(top, place) && EntryAt(top, place).isDirectory == directories && (place == [] || place[0] < n)
  }

  ghost predicate Chosen(top: Entry, places: seq<Place>, directories: bool, n: nat) {
    InOrder(places) && forall p :: p in places <==> IsChosen(top, p, directories, n)
  }

  ghost predicate AreItems(items: seq<Item>, local: string, remote: string, top: Entry, places: seq<Place>) {
    && |items| == |places|
    && forall k :: 0 <= k < |items| ==>
         IsReached(top, places[k]) && items[k] == ItemAt(local, remote, top, places[k])
  }

  function Below(i: nat, places: seq<Place>): (r: seq<Place>)
    ensures |r| == |places| && forall k :: 0 <= k < |r| ==> r[k] == [i] + places[k]
  {
    seq(|places|, k requires 0 <= k < |places| => [i] + places[k])
  }

  lemma BelowHolds(i: nat, places: seq<Place>, p: Place)
    ensures p in Below(i, places) <==> p != [] && p[0] == i && p[1..] in places
  {
    if p != [] && p[0] == i && p[1..] in places {
      var k :| 0 <= k < |places| && places[k] == p[1..];
      assert [i] + places[k] == p;
      assert Below(i, places)[k] == p;
    }
    if p in Below(i, places) {
      var k :| 0 <= k < |places| && Below(i, places)[k] == p;
      assert p[1..] == places[k];
    }
  }

  lemma StepDown(top: Entry, i: nat, q: Place, local: string, remote: string)
    requires i < |top.children| && top.isDirectory && IsTaken(top.children[i])
    ensures var p, child := [i] + q, top.children[i];
      && IsReached(top, p) == IsReached(child, q)
      && (IsReached(child, q) ==>
            && EntryAt(top, p) == EntryAt(child, q)
            && ItemAt(local, remote, top, p)
               == ItemAt(RemotePaths.WithBackslash(local) + child.localName, WithSlash(remote) + RemoteName(child), child, q))
  {
    assert ([i] + q)[1..] == q;
  }

  lemma OrderOfBoth(places: seq<Place>, i: nat, more: seq<Place>)
    requires InOrder(places) && InOrder(more)
    requires forall k :: 0 <= k < |places| ==> places[k] == [] || places[k][0] < i
    ensures InOrder(places + Below(i, more))
  {
    var all := places + Below(i, more);
    forall j, k | 0 <= j < k < |all| ensures Before(all[j], all[k]) {
      if |places| <= j {
        var a, b := more[j - |places|], more[k - |places|];
        assert ([i] + a)[1..] == a && ([i] + b)[1..] == b;
        assert Before(a, b);
      }
    }
  }

  /** The places below the first n + 1 children are those below the first n and those of the
      next child. */
  lemma ChosenOfNext(top: Entry, n: nat, places: seq<Place>, more: seq<Place>, directories: bool)
    requires top.isDirectory && n < |top.children| && IsTaken(top.children[n])
    requires Chosen(top, places, directories, n)
    requires Chosen(top.children[n], more, directories, |top.children[n].children|)
    ensures Chosen(top, places + Below(n, more), directories, n + 1)
  {
    forall k | 0 <= k < |places| ensures places[k] == [] || places[k][0] < n {
      assert places[k] in places;
    }
    OrderOfBoth(places, n, more);
    forall p ensures p in places + Below(n, more) <==> IsChosen(top, p, directories, n + 1) {
      BelowHolds(n, more, p);
      if p != [] && p[0] == n {
        assert p == [n] + p[1..];
        StepDown(top, n, p[1..], "", "");
        ReachedIsInside(top.children[n], p[1..]);
      }
    }
  }

  lemma ReachedIsInside(top: Entry, p: Place)
    ensures IsReached(top, p) && p != [] ==> p[0] < |top.children|
  {
  }

  lemma ChosenSkips(top: Entry, n: nat, places: seq<Place>, directories: bool)
    requires n < |top.children| && !IsTaken(top.children[n]) && Chosen(top, places, directories, n)
    ensures Chosen(top, places, directories, n + 1)
  {
    forall p ensures p in places <==> IsChosen(top, p, directories, n + 1) {
    }
  }

  lemma ItemsOfNext(local: string, remote: string, top: Entry, n: nat, items: seq<Item>, places: seq<Place>,
    more: seq<Item>, morePlaces: seq<Place>)
    requires top.isDirectory && n < |top.children| && IsTaken(top.children[n])
    requires AreItems(items, local, remote, top, places)
    requires var child := top.children[n];
      AreItems(more, RemotePaths.WithBackslash(local) + child.localName, WithSlash(remote) + RemoteName(child), child, morePlaces)
    ensures AreItems(items + more, local, remote, top, places + Below(n, morePlaces))
  {
    var all, whole := items + more, places + Below(n, morePlaces);
    forall k | 0 <= k < |all|
      ensures IsReached(top, whole[k]) && all[k] == ItemAt(local, remote, top, whole[k])
    {
      if |items| <= k {
        assert whole[k] == [n] + morePlaces[k - |items|];
        StepDown(top, n, morePlaces[k - |items|], local, remote);
      } else {
        assert whole[k] == places[k];
      }
    }
  }

  /** The items are those of the places of one kind, in the order of a walk. */
  ghost predicate Held(items: seq<Item>, local: string, remote: string, top: Entry, places: seq<Place>, directories: bool, n: nat) {
    AreItems(items, local, remote, top, places) && Chosen(top, places, directories, n)
  }

  lemma HeldHaveKind(items: seq<Item>, local: string, remote: string, top: Entry, places: seq<Place>, directories: bool, n: nat)
    requires Held(items, local, remote, top, places, directories, n)
    ensures forall k :: 0 <= k < |items| ==> items[k].isDirectory == directories
  {
    forall k | 0 <= k < |items| ensures items[k].isDirectory == directories {
      assert places[k] in places;
    }
  }

  lemma HeldOfNext(local: string, remote: string, top: Entry, n: nat, items: seq<Item>, places: seq<Place>,
    more: seq<Item>, morePlaces: seq<Place>, directories: bool)
    requires top.isDirectory && n < |top.children| && IsTaken(top.children[n])
    requires Held(items, local, remote, top, places, directories, n)
    requires var child := top.children[n];
      Held(more, RemotePaths.WithBackslash(local) + child.localName, WithSlash(remote) + RemoteName(child), child, morePlaces,
           directories, |child.children|)
    ensures Held(items + more, local, remote, top, places + Below(n, morePlaces), directories, n + 1)
  {
    ItemsOfNext(local, remote, top, n, items, places, more, morePlaces);
    ChosenOfNext(top, n, places, morePlaces, directories);
  }

  // ---------- where the plan puts them ----------

  /** Directories before the first file, files at the end. */
  function Grown(items: seq<Item>, directories: seq<Item>, files: seq<Item>): seq<Item> {
    items[..FirstFile(items)] + directories + items[FirstFile(items)..] + files
  }

  lemma FirstFileOfGrown(items: seq<Item>, directories: seq<Item>, files: seq<Item>)
    requires forall k :: 0 <= k < |directories| ==> directories[k].isDirectory
    requires forall k :: 0 <= k < |files| ==> !files[k].isDirectory
    ensures FirstFile(Grown(items, directories, files)) == FirstFile(items) + |directories|
  {
    var n, grown := FirstFile(items), Grown(items, directories, files);
    var m := n + |directories|;
    assert forall k :: 0 <= k < n ==> grown[k] == items[k];
    assert forall k :: n <= k < m ==> grown[k] == directories[k - n];
    assert n < |items| ==> grown[m] == items[n];
    assert n == |items| && files != [] ==> grown[m] == files[0];
    var first := FirstFile(grown);
    assert !(first < m) && !(m < first);
  }

  lemma GrownTwice(items: seq<Item>, d: seq<Item>, f: seq<Item>, e: seq<Item>, g: seq<Item>)
    requires forall k :: 0 <= k < |d| ==> d[k].isDirectory
    requires forall k :: 0 <= k < |f| ==> !f[k].isDirectory
    ensures Grown(Grown(items, d, f), e, g) == Grown(items, d + e, f + g)
  {
    FirstFileOfGrown(items, d, f);
    var n := FirstFile(items);
    CutBehind(items[..n], d, items[n..], f);
    Regroup(items[..n], d, e, items[n..], f, g);
  }

  lemma CutBehind(a: seq<Item>, d: seq<Item>, b: seq<Item>, f: seq<Item>)
    ensures (a + d + b + f)[..|a| + |d|] == a + d && (a + d + b + f)[|a| + |d|..] == b + f
  {
  }

  lemma Regroup(a: seq<Item>, d: seq<Item>, e: seq<Item>, b: seq<Item>, f: seq<Item>, g: seq<Item>)
    ensures (a + d) + e + (b + f) + g == a + (d + e) + b + (f + g)
  {
  }

  lemma GrownByDirectory(items: seq<Item>, item: Item)
    ensures Grown(items, [item], []) == Added(items, FirstFile(items), item)
  {
  }

  lemma GrownByFile(items: seq<Item>, item: Item)
    ensures Grown(items, [], [item]) == items + [item]
  {
    var n := FirstFile(items);
    assert items[..n] + [] + items[n..] == items;
  }

  // ---------- the tree is held ----------

  lemma TopIsHeld(local: string, remote: string, top: Entry)
    requires top.isDirectory
    ensures Held([Item(true, local, remote)], local, remote, top, [[]], true, 0)
    ensures Held([], local, remote, top, [], false, 0)
  {
  }

  lemma FileIsHeld(local: string, remote: string, file: Entry)
    requires !file.isDirectory
    ensures Held([], local, remote, file, [], true, |file.children|)
    ensures Held([Item(false, local, remote)], local, remote, file, [[]], false, |file.children|)
  {
  }

  lemma TreeIsHeld(items: seq<Item>, local: string, remote: string, top: Entry)
    returns (d: seq<Item>, dp: seq<Place>, f: seq<Item>, fp: seq<Place>)
    requires top.isDirectory && WithTree(items, local, remote, top).Some?
    ensures WithTree(items, local, remote, top).value == Grown(items, d, f)
    ensures Held(d, local, remote, top, dp, true, |top.children|)
    ensures Held(f, local, remote, top, fp, false, |top.children|)
    decreases top, 0
  {
    GrownByDirectory(items, Item(true, local, remote));
    d, dp, f, fp := ChildrenAreHeld(items, local, remote, top, |top.children|);
  }

  lemma ChildrenAreHeld(items: seq<Item>, local: string, remote: string, top: Entry, n: nat)
    returns (d: seq<Item>, dp: seq<Place>, f: seq<Item>, fp: seq<Place>)
    requires top.isDirectory && n <= |top.children|
    requires WithChildren(Grown(items, [Item(true, local, remote)], []), local, remote, top, n).Some?
    ensures WithChildren(Grown(items, [Item(true, local, remote)], []), local, remote, top, n).value == Grown(items, d, f)
    ensures Held(d, local, remote, top, dp, true, n) && Held(f, local, remote, top, fp, false, n)
    decreases top, 0, n
  {
    if n == 0 {
      d, dp, f, fp := [Item(true, local, remote)], [[]], [], [];
      TopIsHeld(local, remote, top);
    } else {
      d, dp, f, fp := ChildrenAreHeld(items, local, remote, top, n - 1);
      var child := top.children[n - 1];
      if IsTaken(child) {
        var e, ep, g, gp := ChildIsHeld(Grown(items, d, f), local, remote, child);
        HeldHaveKind(d, local, remote, top, dp, true, n - 1);
        HeldHaveKind(f, local, remote, top, fp, false, n - 1);
        GrownTwice(items, d, f, e, g);
        HeldOfNext(local, remote, top, n - 1, d, dp, e, ep, true);
        HeldOfNext(local, remote, top, n - 1, f, fp, g, gp, false);
        d, dp, f, fp := d + e, dp + Below(n - 1, ep), f + g, fp + Below(n - 1, gp);
      } else {
        ChosenSkips(top, n - 1, dp, true);
        ChosenSkips(top, n - 1, fp, false);
      }
    }
  }

  lemma ChildIsHeld(items: seq<Item>, local: string, remote: string, child: Entry)
    returns (d: seq<Item>, dp: seq<Place>, f: seq<Item>, fp: seq<Place>)
    requires IsTaken(child) && WithChild(items, local, remote, child).Some?
    ensures WithChild(items, local, remote, child).value == Grown(items, d, f)
    ensures var localPath, remotePath := RemotePaths.WithBackslash(local) + child.localName, WithSlash(remote) + RemoteName(child);
      && Held(d, localPath, remotePath, child, dp, true, |child.children|)
      && Held(f, localPath, remotePath, child, fp, false, |child.children|)
    decreases child, 1
  {
    var localPath, remotePath := RemotePaths.WithBackslash(local) + child.localName, WithSlash(remote) + RemoteName(child);
    if child.isDirectory {
      d, dp, f, fp := TreeIsHeld(items, localPath, remotePath, child);
    } else {
      d, dp, f, fp := [], [], [Item(false, localPath, remotePath)], [[]];
      FileIsHeld(localPath, remotePath, child);
      GrownByFile(items, f[0]);
    }
  }

  // ---------- when a tree can be planned ----------

  /** The entry has both paths, and a directory could be listed to its end. */
  ghost predicate CanBePlanned(local: string, remote: string, top: Entry, place: Place)
    requires IsReached(top, place)
  {
    var e := EntryAt(top, place);
    && Fits(LocalAt(local, top, place), RemoteAt(remote, top, place))
    && (place != [] ==> RemoteName(e) != "")
    && (e.isDirectory ==> e.listed && e.finished)
  }

  ghost predicate AllCanBePlanned(local: string, remote: string, top: Entry) {
    forall p :: IsReached(top, p) ==> CanBePlanned(local, remote, top, p)
  }

  /** Everything below the first `n` children can be planned. */
  ghost predicate BelowCanBePlanned(local: string, remote: string, top: Entry, n: nat) {
    forall p :: IsReached(top, p) && p != [] && p[0] < n ==> CanBePlanned(local, remote, top, p)
  }

  /** The child and everything below it can be planned. */
  ghost predicate ChildCanBePlanned(local: string, remote: string, child: Entry) {
    && RemoteName(child) != ""
    && AllCanBePlanned(RemotePaths.WithBackslash(local) + child.localName, WithSlash(remote) + RemoteName(child), child)
  }

  lemma TopAndBelow(local: string, remote: string, top: Entry)
    requires top.isDirectory
    ensures AllCanBePlanned(local, remote, top) <==>
      Fits(local, remote) && top.listed && top.finished && BelowCanBePlanned(local, remote, top, |top.children|)
  {
    assert CanBePlanned(local, remote, top, []) <==> Fits(local, remote) && top.listed && top.finished;
    if Fits(local, remote) && top.listed && top.finished && BelowCanBePlanned(local, remote, top, |top.children|) {
      forall p | IsReached(top, p) ensures CanBePlanned(local, remote, top, p) {
        ReachedIsInside(top, p);
      }
    }
  }

  lemma PlannedFromChild(local: string, remote: string, top: Entry, i: nat, q: Place)
    requires top.isDirectory && i < |top.children| && IsTaken(top.children[i])
    ensures var child := top.children[i];
      && IsReached(top, [i] + q) == IsReached(child, q)
      && (IsReached(child, q) ==>
            (CanBePlanned(local, remote, top, [i] + q) <==>
              && (q == [] ==> RemoteName(child) != "")
              && CanBePlanned(RemotePaths.WithBackslash(local) + child.localName, WithSlash(remote) + RemoteName(child), child, q)))
  {
    StepDown(top, i, q, local, remote);
  }

  lemma NextCanBePlanned(local: string, remote: string, top: Entry, n: nat)
    requires top.isDirectory && n < |top.children| && IsTaken(top.children[n])
    ensures BelowCanBePlanned(local, remote, top, n + 1) <==>
      BelowCanBePlanned(local, remote, top, n) && ChildCanBePlanned(local, remote, top.children[n])
  {
    var child := top.children[n];
    var l, r := RemotePaths.WithBackslash(local) + child.localName, WithSlash(remote) + RemoteName(child);
    if BelowCanBePlanned(local, remote, top, n + 1) {
      PlannedFromChild(local, remote, top, n, []);
      forall q | IsReached(child, q) ensures CanBePlanned(l, r, child, q) {
        PlannedFromChild(local, remote, top, n, q);
      }
    }
    if BelowCanBePlanned(local, remote, top, n) && ChildCanBePlanned(local, remote, child) {
      forall p | IsReached(top, p) && p != [] && p[0] < n + 1 ensures CanBePlanned(local, remote, top, p) {
        if p[0] == n {
          assert p == [n] + p[1..];
          PlannedFromChild(local, remote, top, n, p[1..]);
        }
      }
    }
  }

  lemma NextIsSkipped(local: string, remote: string, top: Entry, n: nat)
    requires n < |top.children| && !IsTaken(top.children[n])
    ensures BelowCanBePlanned(local, remote, top, n + 1) <==> BelowCanBePlanned(local, remote, top, n)
  {
  }

  lemma FileCanBePlanned(local: string, remote: string, file: Entry)
    requires !file.isDirectory
    ensures AllCanBePlanned(local, remote, file) <==> Fits(local, remote)
  {
    assert CanBePlanned(local, remote, file, []) <==> Fits(local, remote);
  }

  lemma TreeSucceeds(items: seq<Item>, local: string, remote: string, top: Entry)
    requires top.isDirectory
    ensures WithTree(items, local, remote, top).Some? <==> AllCanBePlanned(local, remote, top)
    decreases top, 0
  {
    TopAndBelow(local, remote, top);
    var more := WithDirectory(items, local, remote);
    if more.Some? {
      ChildrenSucceed(more.value, local, remote, top, |top.children|);
    }
  }

  lemma ChildrenSucceed(items: seq<Item>, local: string, remote: string, top: Entry, n: nat)
    requires top.isDirectory && n <= |top.children| && Fits(local, remote)
    ensures WithChildren(items, local, remote, top, n).Some? <==> BelowCanBePlanned(local, remote, top, n)
    decreases top, 0, n
  {
    if n > 0 {
      ChildrenSucceed(items, local, remote, top, n - 1);
      var child := top.children[n - 1];
      if IsTaken(child) {
        NextCanBePlanned(local, remote, top, n - 1);
        if WithChildren(items, local, remote, top, n - 1).Some? {
          ChildSucceeds(WithChildren(items, local, remote, top, n - 1).value, local, remote, child);
        }
      } else {
        NextIsSkipped(local, remote, top, n - 1);
      }
    }
  }

  lemma ChildSucceeds(items: seq<Item>, local: string, remote: string, child: Entry)
    requires IsTaken(child) && Fits(local, remote)
    ensures WithChild(items, local, remote, child).Some? <==> ChildCanBePlanned(local, remote, child)
    decreases child, 1
  {
    var l, r := RemotePaths.WithBackslash(local) + child.localName, WithSlash(remote) + RemoteName(child);
    if child.isDirectory {
      TreeSucceeds(items, l, r, child);
      TopAndBelow(l, r, child);
    } else {
      FileCanBePlanned(l, r, child);
    }
  }

  // ---------- the whole plan ----------

  /** First the directories, then the files, each in the order of a walk. */
  ghost predicate InPlanOrder(top: Entry, places: seq<Place>) {
    && (forall k :: 0 <= k < |places| ==> IsReached(top, places[k]))
    && forall j, k :: 0 <= j < k < |places| ==>
         if EntryAt(top, places[j]).isDirectory == EntryAt(top, places[k]).isDirectory then Before(places[j], places[k])
         else EntryAt(top, places[j]).isDirectory
  }

  /** Where the top goes: under its own name, below the remote directory. */
  function TopRemote(remoteParent: string, directory: Entry): string {
    WithSlash(remoteParent) + RemoteName(directory)
  }

  /** A plan is made exactly when the arguments are given, the top is a directory with a name
      and everything that is reached can be planned. */
  lemma BuiltExactlyWhen(localDirectory: string, remoteParent: string, directory: Entry)
    ensures Built(localDirectory, remoteParent, directory).Some? <==>
      && HaveArguments(localDirectory, remoteParent)
      && directory.isDirectory && !directory.isReparsePoint && RemoteName(directory) != ""
      && AllCanBePlanned(RemoveBackslash(localDirectory), TopRemote(remoteParent, directory), directory)
  {
    var local, remote := RemoveBackslash(localDirectory), TopRemote(remoteParent, directory);
    if directory.isDirectory {
      TreeSucceeds([], local, remote, directory);
      TopAndBelow(local, remote, directory);
    }
  }

  /** A plan that is made holds the tree: each entry that is reached has one item, of its kind
      and with the paths its names spell, and there is no other item. */
  lemma PlanIsTheTree(localDirectory: string, remoteParent: string, directory: Entry) returns (places: seq<Place>)
    requires Built(localDirectory, remoteParent, directory).Some?
    ensures var items := Built(localDirectory, remoteParent, directory).value;
      AreItems(items, RemoveBackslash(localDirectory), TopRemote(remoteParent, directory), directory, places)
    ensures forall p :: p in places <==> IsReached(directory, p)
    ensures forall j, k :: 0 <= j < k < |places| ==> places[j] != places[k]
    ensures InPlanOrder(directory, places)
  {
    var local, remote := RemoveBackslash(localDirectory), TopRemote(remoteParent, directory);
    BuiltFromTop(localDirectory, remoteParent, directory);
    var d, dp, f, fp := TreeIsHeld([], local, remote, directory);
    places := dp + fp;
    GrownFromNothing(d, f);
    BothKinds(directory, dp, fp);
    ItemsOfBoth(local, remote, directory, d, dp, f, fp);
  }

  lemma BuiltFromTop(localDirectory: string, remoteParent: string, directory: Entry)
    requires Built(localDirectory, remoteParent, directory).Some?
    ensures directory.isDirectory
    ensures Built(localDirectory, remoteParent, directory)
         == WithTree([], RemoveBackslash(localDirectory), TopRemote(remoteParent, directory), directory)
  {
  }

  lemma GrownFromNothing(d: seq<Item>, f: seq<Item>)
    ensures Grown([], d, f) == d + f
  {
  }

  lemma ItemsOfBoth(local: string, remote: string, top: Entry, d: seq<Item>, dp: seq<Place>, f: seq<Item>, fp: seq<Place>)
    requires AreItems(d, local, remote, top, dp) && AreItems(f, local, remote, top, fp)
    ensures AreItems(d + f, local, remote, top, dp + fp)
  {
  }

  lemma BothKinds(top: Entry, dp: seq<Place>, fp: seq<Place>)
    requires Chosen(top, dp, true, |top.children|) && Chosen(top, fp, false, |top.children|)
    ensures forall p :: p in dp + fp <==> IsReached(top, p)
    ensures InPlanOrder(top, dp + fp)
    ensures var places := dp + fp; forall j, k :: 0 <= j < k < |places| ==> places[j] != places[k]
  {
    var places := dp + fp;
    forall p ensures p in places <==> IsReached(top, p) {
      ReachedIsInside(top, p);
      assert p in dp <==> IsChosen(top, p, true, |top.children|);
      assert p in fp <==> IsChosen(top, p, false, |top.children|);
    }
    KindsInOrder(top, dp, fp);
    forall j, k | 0 <= j < k < |places| ensures places[j] != places[k] {
      BeforeIsIrreflexive(places[j]);
    }
  }

  lemma KindsInOrder(top: Entry, dp: seq<Place>, fp: seq<Place>)
    requires Chosen(top, dp, true, |top.children|) && Chosen(top, fp, false, |top.children|)
    ensures InPlanOrder(top, dp + fp)
  {
    var places := dp + fp;
    forall k | 0 <= k < |places|
      ensures IsReached(top, places[k]) && (EntryAt(top, places[k]).isDirectory <==> k < |dp|)
    {
      if k < |dp| {
        assert places[k] == dp[k] && dp[k] in dp;
      } else {
        assert places[k] == fp[k - |dp|] && fp[k - |dp|] in fp;
      }
    }
  }
}
