/** Creating the local directories of a download plan, when any of them may fail. */
module DownloadDirectories {
  import opened RemotePaths
  import opened DownloadItems

  datatype Block = Nothing | ReparsePoint | LocalDirectory

  /** A failed directory takes everything at or below it with it, from its own index on. */
  function Deselected(items: seq<Item>, i: nat): (r: seq<Item>)
    requires i < |items|
    ensures |r| == |items|
    ensures forall k :: 0 <= k < |items| ==>
      r[k] == if TakenAlong(items, i, k) then items[k].(selected := false) else items[k]
  {
    seq(|items|, k requires 0 <= k < |items| =>
      if TakenAlong(items, i, k) then items[k].(selected := false) else items[k])
  }

  predicate TakenAlong(items: seq<Item>, i: nat, k: nat)
    requires i < |items| && k < |items|
  {
    i <= k && IsInsideRoot(items[i].localPath, items[k].localPath)
  }

  ghost predicate DirectoriesExist(items: seq<Item>, n: nat, created: set<string>) {
    forall k :: 0 <= k < n && k < |items| && items[k].selected && items[k].isDirectory ==> items[k].localPath in created
  }

  /** Deselected are exactly the items at or below a failed directory, and the blocked files. */
  ghost predicate Remaining(first: seq<Item>, items: seq<Item>, failed: set<nat>, blocked: set<nat>) {
    && |items| == |first|
    && (forall i :: i in failed ==> i < |first|)
    && forall k :: 0 <= k < |items| ==>
      && items[k] == first[k].(selected := items[k].selected)
      && (items[k].selected <==>
           first[k].selected && k !in blocked && !exists i :: i in failed && TakenAlong(first, i, k))
  }

  ghost predicate HaveFailed(first: seq<Item>, failed: set<nat>) {
    forall i :: i in failed ==> i < |first| && first[i].isDirectory && first[i].selected
  }

  ghost predicate ItemsOk(r: Roots, items: seq<Item>) {
    AllPlaced(r, items) && NoneShadowed(r, items) && Parented(r, items)
  }

  /** The directories before index `i` have been seen to. */
  ghost predicate Created(r: Roots, first: seq<Item>, items: seq<Item>, i: nat, created: set<string>, failed: set<nat>) {
    && ItemsOk(r, items) && DirectoriesExist(items, i, created)
    && Remaining(first, items, failed, {}) && HaveFailed(first, failed) && forall k :: k in failed ==> k < i
  }

  lemma DirectoryPassed(r: Roots, first: seq<Item>, items: seq<Item>, i: nat, created: set<string>, failed: set<nat>)
    requires Created(r, first, items, i, created, failed) && i < |items|
    ensures Created(r, first, items, i + 1, created + {items[i].localPath}, failed)
    ensures !(items[i].selected && items[i].isDirectory) ==> Created(r, first, items, i + 1, created, failed)
  {
  }

  lemma DirectoryFailed(r: Roots, first: seq<Item>, items: seq<Item>, i: nat, created: set<string>, failed: set<nat>)
    requires Created(r, first, items, i, created, failed) && i < |items| && items[i].selected && items[i].isDirectory
    ensures Created(r, first, Deselected(items, i), i + 1, created, failed + {i}) && i !in failed
  {
    DeselectedKeeps(r, first, items, i, failed, created);
    assert first[i].isDirectory && first[i].selected;
  }

  lemma FewerSelected(r: Roots, items: seq<Item>, after: seq<Item>)
    requires AllPlaced(r, items) && NoneShadowed(r, items)
    requires |after| == |items|
    requires forall k :: 0 <= k < |items| ==>
      after[k] == items[k].(selected := after[k].selected) && (after[k].selected ==> items[k].selected)
    ensures AllPlaced(r, after) && NoneShadowed(r, after)
  {
    forall k | 0 <= k < |after| ensures Placed(r, after[k]) {
      assert Placed(r, items[k]);
    }
  }

  /** The failed directory takes an item along if it takes its parent. */
  lemma ParentGoesFirst(items: seq<Item>, i: nat, q: nat, k: nat)
    requires i < |items| && q < k < |items| && IsParent(items[q], items[k])
    ensures TakenAlong(items, i, q) ==> TakenAlong(items, i, k)
  {
    var top, parent, path := items[i].localPath, items[q].localPath, items[k].localPath;
    if TakenAlong(items, i, q) {
      assert path[..|parent|] == parent;
      assert path[..|top|] == parent[..|top|];
    }
  }

  lemma StillParented(r: Roots, items: seq<Item>, i: nat)
    requires i < |items| && Parented(r, items)
    ensures Parented(r, Deselected(items, i))
  {
    var after := Deselected(items, i);
    forall k | 0 < k < |after| && after[k].selected ensures HasParent(after, k) {
      assert HasParent(items, k);
      var q :| 0 <= q < k && IsParent(items[q], items[k]);
      ParentGoesFirst(items, i, q, k);
      assert IsParent(after[q], after[k]);
    }
  }

  lemma DeselectedKeeps(r: Roots, first: seq<Item>, items: seq<Item>, i: nat, failed: set<nat>, created: set<string>)
    requires ItemsOk(r, items) && i < |items| && items[i].selected
    requires Remaining(first, items, failed, {}) && DirectoriesExist(items, i, created)
    ensures ItemsOk(r, Deselected(items, i))
    ensures Remaining(first, Deselected(items, i), failed + {i}, {})
    ensures DirectoriesExist(Deselected(items, i), i + 1, created)
  {
    DeselectedItemsOk(r, items, i);
    OneMoreFailed(first, items, i, failed);
    StillExist(items, i, created);
  }

  lemma DeselectedItemsOk(r: Roots, items: seq<Item>, i: nat)
    requires ItemsOk(r, items) && i < |items|
    ensures ItemsOk(r, Deselected(items, i))
  {
    FewerSelected(r, items, Deselected(items, i));
    StillParented(r, items, i);
  }

  lemma StillExist(items: seq<Item>, i: nat, created: set<string>)
    requires i < |items| && DirectoriesExist(items, i, created)
    ensures DirectoriesExist(Deselected(items, i), i + 1, created)
  {
    assert TakenAlong(items, i, i);
  }

  lemma OneMoreFailed(first: seq<Item>, items: seq<Item>, i: nat, failed: set<nat>)
    requires Remaining(first, items, failed, {}) && i < |items|
    ensures Remaining(first, Deselected(items, i), failed + {i}, {})
  {
    var after := Deselected(items, i);
    forall k | 0 <= k < |items|
      ensures after[k] == first[k].(selected := after[k].selected)
      ensures after[k].selected <==> first[k].selected && !exists j :: j in failed + {i} && TakenAlong(first, j, k)
    {
      assert items[k] == first[k].(selected := items[k].selected);
      assert TakenAlong(first, i, k) == TakenAlong(items, i, k);
      assert i in failed + {i};
    }
  }

  /** The directories have been created and the files before index `i` checked. */
  ghost predicate Checked(r: Roots, first: seq<Item>, items: seq<Item>, i: nat, created: set<string>, failed: set<nat>, blocked: set<nat>) {
    && i <= |items| && ItemsOk(r, items) && DirectoriesExist(items, |items|, created)
    && Remaining(first, items, failed, blocked) && AreFiles(items, i, blocked)
  }

  ghost predicate AreFiles(items: seq<Item>, i: nat, blocked: set<nat>) {
    forall k :: k in blocked ==> k < i && k < |items| && !items[k].isDirectory
  }

  lemma FilePassed(r: Roots, first: seq<Item>, items: seq<Item>, i: nat, created: set<string>, failed: set<nat>, blocked: set<nat>)
    requires Checked(r, first, items, i, created, failed, blocked) && i < |items|
    ensures Checked(r, first, items, i + 1, created, failed, blocked) && i !in blocked
  {
  }

  lemma FileBlocked(r: Roots, first: seq<Item>, items: seq<Item>, i: nat, created: set<string>, failed: set<nat>, blocked: set<nat>)
    requires Checked(r, first, items, i, created, failed, blocked) && i < |items| && !items[i].isDirectory
    ensures Checked(r, first, items[i := items[i].(selected := false)], i + 1, created, failed, blocked + {i})
  {
    BlockedItemsOk(r, items, i);
    OneMoreBlocked(first, items, i, failed, blocked);
    BlockedLeavesDirectories(items, i, created, blocked);
  }

  lemma BlockedLeavesDirectories(items: seq<Item>, i: nat, created: set<string>, blocked: set<nat>)
    requires i < |items| && !items[i].isDirectory && DirectoriesExist(items, |items|, created) && AreFiles(items, i, blocked)
    ensures var after := items[i := items[i].(selected := false)];
      DirectoriesExist(after, |after|, created) && AreFiles(after, i + 1, blocked + {i})
  {
  }

  lemma OneMoreBlocked(first: seq<Item>, items: seq<Item>, i: nat, failed: set<nat>, blocked: set<nat>)
    requires Remaining(first, items, failed, blocked) && i < |items|
    ensures Remaining(first, items[i := items[i].(selected := false)], failed, blocked + {i})
  {
  }

  /** A file is the parent of nothing. */
  lemma BlockedItemsOk(r: Roots, items: seq<Item>, i: nat)
    requires ItemsOk(r, items) && i < |items| && !items[i].isDirectory
    ensures ItemsOk(r, items[i := items[i].(selected := false)])
  {
    var after := items[i := items[i].(selected := false)];
    FewerSelected(r, items, after);
    forall k | 0 < k < |after| && after[k].selected ensures HasParent(after, k) {
      assert HasParent(items, k);
      var q :| 0 <= q < k && IsParent(items[q], items[k]);
      assert IsParent(after[q], after[k]);
    }
  }

  /** After the preparation every directory between the root and a selected item, and the
      item itself if it is a directory, is selected and has been created. */
  lemma AncestorsWereCreated(r: Roots, items: seq<Item>, created: set<string>, k: nat, ancestor: string)
    requires Parented(r, items) && DirectoriesExist(items, |items|, created)
    requires k < |items| && items[k].selected
    requires IsInsideRoot(r.local, ancestor) && IsAncestor(ancestor, items[k].localPath)
    ensures ancestor in created
    ensures exists q :: 0 <= q < k && items[q].isDirectory && items[q].selected && items[q].localPath == ancestor
  {
    var q := AncestorsAreSelected(r, items, k, ancestor);
    assert items[q].localPath in created;
  }
}
