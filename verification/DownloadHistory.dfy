/** The whole life of a download plan: its root, then listings, marks and deselections in any
    order. */
module DownloadHistory {
  import opened Operations
  import opened RemotePaths
  import opened DownloadItems
  import opened DownloadScan
  import opened DownloadDirectories

  datatype Plan = Plan(items: seq<Item>, failures: seq<Failure>)

  /** What happens to a plan; a listing is of any path, not only of a pending directory. */
  datatype Change =
    | Listed(path: string, files: seq<FtpFile>, behind: bool)
    | Marked(index: nat)
    | Failed(index: nat)
    | Blocked(index: nat)

  function Built(r: Roots): Plan {
    Plan([Item(true, false, true, false, r.local, r.remote)], [])
  }

  /** A refused listing and an index outside the list change nothing. */
  function Changed(r: Roots, plan: Plan, c: Change): Plan {
    var items := plan.items;
    match c
    case Listed(path, files, behind) =>
      (match Applied(r, items, plan.failures, path, files, behind)
       case None => plan
       case Some((after, log)) => Plan(after, log))
    case Marked(i) => if i < |items| then plan.(items := items[i := items[i].(scanned := true)]) else plan
    case Failed(i) => if i < |items| then plan.(items := Deselected(items, i)) else plan
    case Blocked(i) => if i < |items| then plan.(items := items[i := items[i].(selected := false)]) else plan
  }

  function AllChanged(r: Roots, plan: Plan, changes: seq<Change>): Plan {
    if changes == [] then plan
    else
      var n := |changes| - 1;
      Changed(r, AllChanged(r, plan, changes[..n]), changes[n])
  }

  lemma ChangeKeepsItems(r: Roots, plan: Plan, c: Change)
    requires AllPlaced(r, plan.items) && NoneShadowed(r, plan.items)
    ensures AllPlaced(r, Changed(r, plan, c).items) && NoneShadowed(r, Changed(r, plan, c).items)
  {
    var items := plan.items;
    match c
    case Listed(path, files, behind) => AppliedKeepsItems(r, items, plan.failures, path, files, behind);
    case Marked(i) =>
      if i < |items| {
        ScannedKeeps(r, items, i);
      }
    case Failed(i) =>
      if i < |items| {
        FewerSelected(r, items, Deselected(items, i));
      }
    case Blocked(i) =>
      if i < |items| {
        FewerSelected(r, items, items[i := items[i].(selected := false)]);
      }
  }

  lemma {:induction false} ChangesKeepItems(r: Roots, plan: Plan, changes: seq<Change>)
    requires AllPlaced(r, plan.items) && NoneShadowed(r, plan.items)
    ensures AllPlaced(r, AllChanged(r, plan, changes).items) && NoneShadowed(r, AllChanged(r, plan, changes).items)
  {
    if changes != [] {
      var n := |changes| - 1;
      ChangesKeepItems(r, plan, changes[..n]);
      ChangeKeepsItems(r, AllChanged(r, plan, changes[..n]), changes[n]);
    }
  }

  /** Whatever is listed, in whatever order and however often, no two selected items have
      local paths that are equal up to case, and every local path is the root or below it. */
  lemma LocalPathsStayApart(p: Platform, localParent: string, remoteRoot: string, r: Roots, changes: seq<Change>)
    requires RootsFor(p, localParent, remoteRoot) == Some(r)
    ensures var items := AllChanged(r, Built(r), changes).items;
      && (forall i, j :: 0 <= i < |items| && 0 <= j < |items| && i != j && items[i].selected && items[j].selected ==>
            r.platform.fold(items[i].localPath) != r.platform.fold(items[j].localPath))
      && (forall i :: 0 <= i < |items| ==> IsInsideRoot(r.local, items[i].localPath))
  {
    RootsAreNormalized(p, localParent, remoteRoot);
    RootIsPlaced(r);
    ChangesKeepItems(r, Built(r), changes);
    SelectedPathsDiffer(r, AllChanged(r, Built(r), changes).items);
  }
}
