/** What the server lists is in the plan: every entry that can be downloaded has its item, in
    the order of the listing, and every other entry has its one failure. */
module DownloadListing {
  import opened Operations
  import opened RemotePaths
  import opened DownloadItems
  import opened DownloadScan

  // ---------- one entry ----------

  /** The path is the directory, a slash and one name that has a local form. */
  predicate IsNamedIn(r: Roots, directory: string, path: string) {
    directory + "/" <= path && LocalName(r.platform, path[|directory| + 1..]).Some?
  }

  /** An entry that can be downloaded. */
  predicate IsListed(r: Roots, directory: string, file: FtpFile) {
    && (file.fileType == FileEntry || file.fileType == DirectoryEntry)
    && IsNamedIn(r, directory, file.filePath) && LocalPath(r, file.filePath).Some?
  }

  /** The item is of the path and the kind of the entry. */
  predicate Describes(r: Roots, item: Item, file: FtpFile) {
    && item.remotePath == file.filePath && (item.isDirectory <==> file.fileType == DirectoryEntry)
    && !item.isLink && LocalPath(r, file.filePath) == Some(item.localPath)
  }

  /** A new item is selected unless an item before it has its local path up to case, and only
      a directory is still to be scanned. */
  predicate Recorded(r: Roots, before: seq<Item>, item: Item, file: FtpFile) {
    && Describes(r, item, file) && (item.scanned <==> !item.isDirectory)
    && (item.selected <==>
        forall j :: 0 <= j < |before| ==> r.platform.fold(before[j].localPath) != r.platform.fold(item.localPath))
  }

  /** Why an entry is reported. */
  function Reason(r: Roots, directory: string, file: FtpFile): Failure {
    if !(directory + "/" <= file.filePath) then MalformedPath
    else if !IsNamedIn(r, directory, file.filePath) then MalformedName
    else if file.fileType == LinkEntry then SymbolicLink
    else if file.fileType == UnknownEntry then UnknownItem
    else if LocalPath(r, file.filePath).None? then PathOutsideRoot
    else NameConflict
  }

  lemma PathRegroups(directory: string, path: string)
    ensures directory + "/" <= path ==>
      |path| > |directory| && path[..|directory|] == directory && path[|directory|] == '/'
      && directory + "/" + path[|directory| + 1..] == path
    ensures |path| > |directory| && path[..|directory|] == directory && path[|directory|] == '/' ==>
      directory + "/" <= path
  {
    if |path| > |directory| && path[..|directory|] == directory && path[|directory|] == '/' {
      assert path[..|directory| + 1] == directory + "/";
    }
  }

  lemma ChildIsRecorded(r: Roots, items: seq<Item>, isDirectory: bool, path: string)
    requires path != "" && path[|path| - 1] != '/'
    ensures var (item, failure) := Child(r, items, isDirectory, path);
      if LocalPath(r, path).None? then item.None? && failure == Some(PathOutsideRoot)
      else
        && item.Some? && failure == (if item.value.selected then None else Some(NameConflict))
        && Recorded(r, items, item.value, FtpFile(path, if isDirectory then DirectoryEntry else FileEntry))
  {
    NewItemPath(r, isDirectory, path);
    assert StripSlashes(path, |r.remote|) == path;
  }

  /** What is true of an entry's item and failure. */
  ghost predicate EntryOk(r: Roots, items: seq<Item>, directory: string, file: FtpFile, item: Option<Item>, failure: Option<Failure>) {
    && (item.Some? <==> IsListed(r, directory, file))
    && (item.Some? ==> Recorded(r, items, item.value, file))
    && (failure.Some? <==> item.None? || !item.value.selected)
    && (failure.Some? ==> failure.value == Reason(r, directory, file))
  }

  /** One entry makes one item, or one failure, or both when the local path is taken. */
  lemma EntryIsRecorded(r: Roots, items: seq<Item>, directory: string, file: FtpFile)
    ensures var (item, failure) := Entry(r, items, directory, file);
      EntryOk(r, items, directory, file, item, failure)
  {
    var path := file.filePath;
    PathRegroups(directory, path);
    if IsNamedIn(r, directory, path) {
      ChildPathShape(r, directory, path[|directory| + 1..], LocalName(r.platform, path[|directory| + 1..]).value);
      ChildIsRecorded(r, items, file.fileType == DirectoryEntry, path);
    }
  }

  // ---------- a whole listing ----------

  ghost predicate Increasing(at: seq<nat>, n: nat) {
    && (forall i, j :: 0 <= i < j < |at| ==> at[i] < at[j])
    && (forall i :: 0 <= i < |at| ==> at[i] < n)
  }

  /** Of the first n entries those that can be downloaded are at these places. */
  ghost predicate ListedAt(r: Roots, directory: string, files: seq<FtpFile>, n: nat, at: seq<nat>)
    requires n <= |files|
  {
    Increasing(at, n) && forall m: nat :: m < n ==> (m in at <==> IsListed(r, directory, files[m]))
  }

  /** The item at this place is that of the entry, after the items before it. */
  ghost predicate RecordedFor(r: Roots, after: seq<Item>, n: nat, file: FtpFile) {
    n < |after| && Recorded(r, after[..n], after[n], file)
  }

  /** Behind the old items there is one for each of these entries, in this order. */
  ghost predicate RecordedAt(r: Roots, items: seq<Item>, files: seq<FtpFile>, after: seq<Item>, at: seq<nat>) {
    && items <= after && |after| == |items| + |at|
    && (forall k :: 0 <= k < |at| ==>
          at[k] < |files| && RecordedFor(r, after, |items| + k, files[at[k]]))
  }

  /** The item of the entry at this place has its local path taken. */
  ghost predicate IsShadowed(items: seq<Item>, after: seq<Item>, at: seq<nat>, n: nat)
    requires |after| == |items| + |at|
  {
    exists k :: 0 <= k < |at| && at[k] == n && !after[|items| + k].selected
  }

  /** Of the first n entries those that make no selected item are at these places. */
  ghost predicate FailingAt(r: Roots, items: seq<Item>, directory: string, files: seq<FtpFile>, n: nat,
    after: seq<Item>, at: seq<nat>, bad: seq<nat>)
    requires n <= |files| && |after| == |items| + |at|
  {
    && Increasing(bad, n)
    && (forall m: nat :: m < n ==>
          (m in bad <==> !IsListed(r, directory, files[m]) || IsShadowed(items, after, at, m)))
  }

  /** Behind the old failures there is one for each of these entries, in this order. */
  ghost predicate ReportedAt(r: Roots, failures: seq<Failure>, directory: string, files: seq<FtpFile>,
    log: seq<Failure>, bad: seq<nat>)
  {
    && failures <= log && |log| == |failures| + |bad|
    && (forall k :: 0 <= k < |bad| ==>
          bad[k] < |files| && log[|failures| + k] == Reason(r, directory, files[bad[k]]))
  }

  ghost predicate AccountsAt(r: Roots, items: seq<Item>, failures: seq<Failure>, directory: string, files: seq<FtpFile>, n: nat,
    after: seq<Item>, log: seq<Failure>, at: seq<nat>, bad: seq<nat>)
    requires n <= |files|
  {
    && ListedAt(r, directory, files, n, at) && RecordedAt(r, items, files, after, at)
    && FailingAt(r, items, directory, files, n, after, at, bad) && ReportedAt(r, failures, directory, files, log, bad)
  }

  /** Everything listed is accounted for. */
  ghost predicate Accounts(r: Roots, items: seq<Item>, failures: seq<Failure>, directory: string, files: seq<FtpFile>,
    after: seq<Item>, log: seq<Failure>)
  {
    exists at, bad :: AccountsAt(r, items, failures, directory, files, |files|, after, log, at, bad)
  }

  function With(at: seq<nat>, n: nat, more: bool): seq<nat> {
    if more then at + [n] else at
  }

  lemma IncreasesFurther(at: seq<nat>, n: nat, more: bool)
    requires Increasing(at, n)
    ensures Increasing(With(at, n, more), n + 1)
    ensures forall m: nat :: m < n ==> (m in With(at, n, more) <==> m in at)
    ensures n in With(at, n, more) <==> more
  {
    assert n !in at;
  }

  lemma ChosenFurther(at: seq<nat>, n: nat, test: nat -> bool, more: bool)
    requires Increasing(at, n) && forall m: nat :: m < n ==> (m in at <==> test(m))
    requires more <==> test(n)
    ensures Increasing(With(at, n, more), n + 1)
    ensures forall m: nat :: m < n + 1 ==> (m in With(at, n, more) <==> test(m))
  {
    IncreasesFurther(at, n, more);
  }

  lemma OneMoreListed(r: Roots, directory: string, files: seq<FtpFile>, n: nat, at: seq<nat>, listed: bool)
    requires n < |files| && ListedAt(r, directory, files, n, at)
    requires listed <==> IsListed(r, directory, files[n])
    ensures ListedAt(r, directory, files, n + 1, With(at, n, listed))
  {
    ChosenFurther(at, n, (m: nat) => m < |files| && IsListed(r, directory, files[m]), listed);
  }

  lemma FrontsOfBoth(before: seq<Item>, item: Item, n: nat)
    requires n <= |before|
    ensures (before + [item])[..n] == before[..n] && before[..|before|] == before
  {
  }

  lemma StaysRecorded(r: Roots, before: seq<Item>, item: Item, n: nat, file: FtpFile)
    requires RecordedFor(r, before, n, file)
    ensures RecordedFor(r, before + [item], n, file)
  {
    FrontsOfBoth(before, item, n);
  }

  lemma LastIsRecorded(r: Roots, before: seq<Item>, item: Item, file: FtpFile)
    requires Recorded(r, before, item, file)
    ensures RecordedFor(r, before + [item], |before|, file)
  {
    FrontsOfBoth(before, item, |before|);
  }

  lemma OneMoreItem(r: Roots, items: seq<Item>, files: seq<FtpFile>, n: nat, before: seq<Item>, at: seq<nat>, item: Item)
    requires n < |files| && RecordedAt(r, items, files, before, at) && Recorded(r, before, item, files[n])
    ensures RecordedAt(r, items, files, before + [item], at + [n])
  {
    var after, next := before + [item], at + [n];
    forall k | 0 <= k < |next| ensures next[k] < |files| && RecordedFor(r, after, |items| + k, files[next[k]]) {
      if k < |at| {
        StaysRecorded(r, before, item, |items| + k, files[at[k]]);
      } else {
        LastIsRecorded(r, before, item, files[n]);
      }
    }
  }

  lemma ShadowsStay(items: seq<Item>, before: seq<Item>, at: seq<nat>, item: Item, n: nat)
    requires |before| == |items| + |at| && Increasing(at, n)
    ensures forall m: nat :: m < n ==>
      (IsShadowed(items, before + [item], at + [n], m) <==> IsShadowed(items, before, at, m))
    ensures IsShadowed(items, before + [item], at + [n], n) <==> !item.selected
  {
    var next, after := at + [n], before + [item];
    forall m: nat | m < n && IsShadowed(items, before, at, m) ensures IsShadowed(items, after, next, m) {
      var k :| 0 <= k < |at| && at[k] == m && !before[|items| + k].selected;
      assert next[k] == m && !after[|items| + k].selected;
    }
    assert next[|at|] == n && after[|items| + |at|] == item;
  }

  lemma NoneShadowedBeyond(items: seq<Item>, after: seq<Item>, at: seq<nat>, n: nat)
    requires |after| == |items| + |at| && Increasing(at, n)
    ensures !IsShadowed(items, after, at, n)
  {
  }

  lemma OneMoreFailing(r: Roots, items: seq<Item>, directory: string, files: seq<FtpFile>, n: nat,
    before: seq<Item>, at: seq<nat>, bad: seq<nat>, after: seq<Item>, next: seq<nat>, fails: bool)
    requires n < |files| && |before| == |items| + |at| && |after| == |items| + |next|
    requires FailingAt(r, items, directory, files, n, before, at, bad)
    requires forall m: nat :: m < n ==> (IsShadowed(items, after, next, m) <==> IsShadowed(items, before, at, m))
    requires fails <==> !IsListed(r, directory, files[n]) || IsShadowed(items, after, next, n)
    ensures FailingAt(r, items, directory, files, n + 1, after, next, With(bad, n, fails))
  {
    ChosenFurther(bad, n,
      (m: nat) => m < |files| && (!IsListed(r, directory, files[m]) || IsShadowed(items, after, next, m)), fails);
  }

  lemma OneMoreReported(r: Roots, failures: seq<Failure>, directory: string, files: seq<FtpFile>, n: nat,
    log: seq<Failure>, bad: seq<nat>, failure: Option<Failure>)
    requires n < |files| && ReportedAt(r, failures, directory, files, log, bad)
    requires failure.Some? ==> failure.value == Reason(r, directory, files[n])
    ensures ReportedAt(r, failures, directory, files, log + AsSeq(failure), With(bad, n, failure.Some?))
  {
    assert failure.None? ==> log + AsSeq(failure) == log;
  }

  /** One entry more, that makes an item or none. */
  lemma OneMoreEntry(r: Roots, items: seq<Item>, directory: string, files: seq<FtpFile>, n: nat,
    before: seq<Item>, at: seq<nat>, bad: seq<nat>, item: Option<Item>)
    requires n < |files| && ListedAt(r, directory, files, n, at) && RecordedAt(r, items, files, before, at)
    requires FailingAt(r, items, directory, files, n, before, at, bad)
    requires item.Some? <==> IsListed(r, directory, files[n])
    requires item.Some? ==> Recorded(r, before, item.value, files[n])
    ensures var after, next := before + AsSeq(item), With(at, n, item.Some?);
      && ListedAt(r, directory, files, n + 1, next) && RecordedAt(r, items, files, after, next)
      && FailingAt(r, items, directory, files, n + 1, after, next, With(bad, n, item.None? || !item.value.selected))
  {
    OneMoreListed(r, directory, files, n, at, item.Some?);
    match item
    case Some(i) =>
      OneMoreItem(r, items, files, n, before, at, i);
      ShadowsStay(items, before, at, i, n);
      OneMoreFailing(r, items, directory, files, n, before, at, bad, before + [i], at + [n], !i.selected);
    case None =>
      NoneShadowedBeyond(items, before, at, n);
      assert before + AsSeq(item) == before;
      OneMoreFailing(r, items, directory, files, n, before, at, bad, before, at, true);
  }

  lemma AccountsFurther(r: Roots, items: seq<Item>, failures: seq<Failure>, directory: string, files: seq<FtpFile>, n: nat,
    before: seq<Item>, log: seq<Failure>, at: seq<nat>, bad: seq<nat>, item: Option<Item>, failure: Option<Failure>)
    requires n < |files| && AccountsAt(r, items, failures, directory, files, n, before, log, at, bad)
    requires EntryOk(r, before, directory, files[n], item, failure)
    ensures AccountsAt(r, items, failures, directory, files, n + 1, before + AsSeq(item), log + AsSeq(failure),
      With(at, n, item.Some?), With(bad, n, failure.Some?))
  {
    OneMoreEntry(r, items, directory, files, n, before, at, bad, item);
    OneMoreReported(r, failures, directory, files, n, log, bad, failure);
  }

  lemma ListingOfOneMore(r: Roots, items: seq<Item>, failures: seq<Failure>, directory: string, files: seq<FtpFile>, n: nat)
    requires n < |files|
    ensures var (before, log) := Listing(r, items, failures, directory, files[..n]);
      var (item, failure) := Entry(r, before, directory, files[n]);
      Listing(r, items, failures, directory, files[..n + 1]) == (before + AsSeq(item), log + AsSeq(failure))
  {
    assert files[..n + 1][..n] == files[..n];
  }

  lemma NothingListed(r: Roots, items: seq<Item>, failures: seq<Failure>, directory: string, files: seq<FtpFile>)
    ensures AccountsAt(r, items, failures, directory, files, 0, items, failures, [], [])
  {
  }

  lemma ListingFurther(r: Roots, items: seq<Item>, failures: seq<Failure>, directory: string, files: seq<FtpFile>, n: nat,
    at: seq<nat>, bad: seq<nat>)
    returns (next: seq<nat>, worse: seq<nat>)
    requires n < |files|
    requires var (before, log) := Listing(r, items, failures, directory, files[..n]);
      AccountsAt(r, items, failures, directory, files, n, before, log, at, bad)
    ensures var (after, log) := Listing(r, items, failures, directory, files[..n + 1]);
      AccountsAt(r, items, failures, directory, files, n + 1, after, log, next, worse)
  {
    var (before, log) := Listing(r, items, failures, directory, files[..n]);
    var (item, failure) := Entry(r, before, directory, files[n]);
    EntryIsRecorded(r, before, directory, files[n]);
    ListingOfOneMore(r, items, failures, directory, files, n);
    next, worse := With(at, n, item.Some?), With(bad, n, failure.Some?);
    AccountsFurther(r, items, failures, directory, files, n, before, log, at, bad, item, failure);
  }

  lemma {:induction false} ListingIsAccountedUpTo(r: Roots, items: seq<Item>, failures: seq<Failure>, directory: string,
    files: seq<FtpFile>, n: nat)
    returns (at: seq<nat>, bad: seq<nat>)
    requires n <= |files|
    ensures var (after, log) := Listing(r, items, failures, directory, files[..n]);
      AccountsAt(r, items, failures, directory, files, n, after, log, at, bad)
  {
    if n == 0 {
      at, bad := [], [];
      NothingListed(r, items, failures, directory, files);
    } else {
      at, bad := ListingIsAccountedUpTo(r, items, failures, directory, files, n - 1);
      at, bad := ListingFurther(r, items, failures, directory, files, n - 1, at, bad);
    }
  }

  /** Every listing, whatever the server sends, is accounted for entry by entry. */
  lemma ListingIsAccounted(r: Roots, items: seq<Item>, failures: seq<Failure>, directory: string, files: seq<FtpFile>)
    ensures var (after, log) := Listing(r, items, failures, directory, files);
      Accounts(r, items, failures, directory, files, after, log)
  {
    var at, bad := ListingIsAccountedUpTo(r, items, failures, directory, files, |files|);
    assert files[..|files|] == files;
  }

  /** An accepted listing is accounted for, under the path of its directory, unless that
      directory lies outside the root or behind a reparse point: then it is reported. */
  ghost predicate AppliedAccounts(r: Roots, items: seq<Item>, failures: seq<Failure>, path: string, files: seq<FtpFile>,
    behind: bool, after: seq<Item>, log: seq<Failure>)
  {
    var directory := Normalized(r.platform, path);
    && directory.Some?
    && if LocalPath(r, directory.value).None? then after == items && log == failures + [DirectoryOutsideRoot]
       else if behind then after == items && log == failures + [DirectoryBehindReparsePoint]
       else Accounts(r, items, failures, directory.value, files, after, log)
  }

  lemma AppliedIsAccounted(r: Roots, items: seq<Item>, failures: seq<Failure>, path: string, files: seq<FtpFile>, behind: bool)
    ensures var applied := Applied(r, items, failures, path, files, behind);
      applied.Some? ==> AppliedAccounts(r, items, failures, path, files, behind, applied.value.0, applied.value.1)
  {
    var directory := Normalized(r.platform, path);
    if directory.Some? {
      ListingIsAccounted(r, items, failures, directory.value, files);
    }
  }

  // ---------- a whole scan ----------

  ghost predicate HasItem(r: Roots, items: seq<Item>, file: FtpFile) {
    exists j :: 0 <= j < |items| && Describes(r, items[j], file)
  }

  /** Every entry that can be downloaded has an item of its path and kind. */
  ghost predicate HoldsAll(r: Roots, items: seq<Item>, directory: string, files: seq<FtpFile>) {
    forall n :: 0 <= n < |files| && IsListed(r, directory, files[n]) ==> HasItem(r, items, files[n])
  }

  ghost predicate HoldsAnswers(r: Roots, items: seq<Item>, answers: seq<Answer>) {
    forall k :: 0 <= k < |answers| ==>
      && answers[k].index < |items|
      && (!answers[k].behind ==> HoldsAll(r, items, items[answers[k].index].remotePath, answers[k].files))
  }

  ghost predicate IsFrom(r: Roots, items: seq<Item>, item: Item, a: Answer) {
    && !a.behind && a.index < |items|
    && exists n :: 0 <= n < |a.files| && IsListed(r, items[a.index].remotePath, a.files[n]) && Describes(r, item, a.files[n])
  }

  ghost predicate HasSource(r: Roots, items: seq<Item>, item: Item, answers: seq<Answer>) {
    exists k :: 0 <= k < |answers| && IsFrom(r, items, item, answers[k])
  }

  /** Every item that is new since the first ones comes from an answer. */
  ghost predicate NothingElse(r: Roots, first: nat, items: seq<Item>, answers: seq<Answer>) {
    forall j :: first <= j < |items| ==> HasSource(r, items, items[j], answers)
  }

  ghost predicate IsAsked(answers: seq<Answer>, j: nat) {
    exists k :: 0 <= k < |answers| && answers[k].index == j
  }

  /** The server was asked for exactly the directories that are now scanned and were not. */
  ghost predicate AskedForAll(first: seq<Item>, items: seq<Item>, answers: seq<Answer>) {
    forall j :: 0 <= j < |items| ==>
      (IsAsked(answers, j) <==> items[j].isDirectory && items[j].scanned && !(j < |first| && first[j].scanned))
  }

  /** The items as they were, but that some have been scanned, and perhaps more. */
  ghost predicate Extends(items: seq<Item>, later: seq<Item>) {
    && |items| <= |later|
    && forall j :: 0 <= j < |items| ==>
         later[j] == items[j].(scanned := later[j].scanned) && (items[j].scanned ==> later[j].scanned)
  }

  /** What was answered is in the plan, and nothing else is. */
  ghost predicate ScanIsComplete(r: Roots, first: seq<Item>, items: seq<Item>, answers: seq<Answer>) {
    && Extends(first, items) && HoldsAnswers(r, items, answers)
    && NothingElse(r, |first|, items, answers) && AskedForAll(first, items, answers)
  }

  lemma HoldsLater(r: Roots, items: seq<Item>, later: seq<Item>, directory: string, files: seq<FtpFile>)
    requires Extends(items, later) && HoldsAll(r, items, directory, files)
    ensures HoldsAll(r, later, directory, files)
  {
    forall n | 0 <= n < |files| && IsListed(r, directory, files[n]) ensures HasItem(r, later, files[n]) {
      assert HasItem(r, items, files[n]);
      var j :| 0 <= j < |items| && Describes(r, items[j], files[n]);
      assert Describes(r, later[j], files[n]);
    }
  }

  /** All the answers, when this one comes after the others. */
  ghost predicate EndsWith(all: seq<Answer>, answers: seq<Answer>, a: Answer) {
    |all| == |answers| + 1 && all[|answers|] == a && forall k :: 0 <= k < |answers| ==> all[k] == answers[k]
  }

  lemma AnswersHoldLater(r: Roots, items: seq<Item>, later: seq<Item>, answers: seq<Answer>, a: Answer, all: seq<Answer>)
    requires EndsWith(all, answers, a)
    requires Extends(items, later) && HoldsAnswers(r, items, answers) && a.index < |later|
    requires !a.behind ==> HoldsAll(r, later, later[a.index].remotePath, a.files)
    ensures HoldsAnswers(r, later, all)
  {
    forall k | 0 <= k < |answers| && !answers[k].behind
      ensures HoldsAll(r, later, later[answers[k].index].remotePath, answers[k].files)
    {
      HoldsLater(r, items, later, items[answers[k].index].remotePath, answers[k].files);
    }
  }

  lemma IsFromLater(r: Roots, items: seq<Item>, later: seq<Item>, j: nat, a: Answer)
    requires Extends(items, later) && j < |items| && IsFrom(r, items, items[j], a)
    ensures IsFrom(r, later, later[j], a)
  {
    var n :| 0 <= n < |a.files| && IsListed(r, items[a.index].remotePath, a.files[n]) && Describes(r, items[j], a.files[n]);
    assert Describes(r, later[j], a.files[n]);
  }

  lemma NothingElseLater(r: Roots, first: nat, items: seq<Item>, later: seq<Item>, answers: seq<Answer>, a: Answer,
    all: seq<Answer>)
    requires EndsWith(all, answers, a)
    requires Extends(items, later) && NothingElse(r, first, items, answers)
    requires forall j :: |items| <= j < |later| ==> IsFrom(r, later, later[j], a)
    ensures NothingElse(r, first, later, all)
  {
    forall j | first <= j < |later| ensures HasSource(r, later, later[j], all) {
      if j < |items| {
        assert HasSource(r, items, items[j], answers);
        var k :| 0 <= k < |answers| && IsFrom(r, items, items[j], answers[k]);
        IsFromLater(r, items, later, j, answers[k]);
        assert all[k] == answers[k];
      } else {
        assert all[|answers|] == a;
      }
    }
  }

  lemma AskedOnceMore(first: seq<Item>, items: seq<Item>, later: seq<Item>, answers: seq<Answer>, a: Answer, all: seq<Answer>)
    requires EndsWith(all, answers, a)
    requires Extends(first, items) && Extends(items, later) && AskedForAll(first, items, answers)
    requires forall k :: 0 <= k < |answers| ==> answers[k].index < |items|
    requires a.index < |items| && items[a.index].isDirectory && !items[a.index].scanned
    requires forall j :: 0 <= j < |items| ==> (later[j].scanned <==> items[j].scanned || j == a.index)
    requires forall j :: |items| <= j < |later| ==> (later[j].scanned <==> !later[j].isDirectory)
    ensures AskedForAll(first, later, all)
  {
    forall j | 0 <= j < |later|
      ensures IsAsked(all, j) <==> later[j].isDirectory && later[j].scanned && !(j < |first| && first[j].scanned)
    {
      IsAskedOfMore(answers, a, all, j);
      if j < |items| {
        assert IsAsked(answers, j) <==> items[j].isDirectory && items[j].scanned && !(j < |first| && first[j].scanned);
      }
    }
  }

  lemma IsAskedOfMore(answers: seq<Answer>, a: Answer, all: seq<Answer>, j: nat)
    requires EndsWith(all, answers, a)
    ensures IsAsked(all, j) <==> IsAsked(answers, j) || a.index == j
  {
    if IsAsked(answers, j) {
      var k :| 0 <= k < |answers| && answers[k].index == j;
      assert all[k].index == j;
    }
    assert all[|answers|] == a;
  }

  ghost predicate IsFromListing(r: Roots, directory: string, files: seq<FtpFile>, item: Item) {
    && (item.scanned <==> !item.isDirectory)
    && exists n :: 0 <= n < |files| && IsListed(r, directory, files[n]) && Describes(r, item, files[n])
  }

  lemma ListedHasItem(r: Roots, items: seq<Item>, directory: string, files: seq<FtpFile>, after: seq<Item>, at: seq<nat>, n: nat)
    requires ListedAt(r, directory, files, |files|, at) && RecordedAt(r, items, files, after, at)
    requires n < |files| && IsListed(r, directory, files[n])
    ensures HasItem(r, after, files[n])
  {
    assert n in at;
    var k :| 0 <= k < |at| && at[k] == n;
    assert RecordedFor(r, after, |items| + k, files[at[k]]);
    assert Describes(r, after[|items| + k], files[n]);
  }

  lemma ItemIsListed(r: Roots, items: seq<Item>, directory: string, files: seq<FtpFile>, after: seq<Item>, at: seq<nat>, k: nat)
    requires ListedAt(r, directory, files, |files|, at) && RecordedAt(r, items, files, after, at) && k < |at|
    ensures IsFromListing(r, directory, files, after[|items| + k])
  {
    assert RecordedFor(r, after, |items| + k, files[at[k]]);
    assert at[k] in at;
  }

  lemma AccountsHold(r: Roots, items: seq<Item>, failures: seq<Failure>, directory: string, files: seq<FtpFile>,
    after: seq<Item>, log: seq<Failure>)
    requires Accounts(r, items, failures, directory, files, after, log)
    ensures items <= after && HoldsAll(r, after, directory, files)
    ensures forall j :: |items| <= j < |after| ==> IsFromListing(r, directory, files, after[j])
  {
    var at, bad :| AccountsAt(r, items, failures, directory, files, |files|, after, log, at, bad);
    forall n | 0 <= n < |files| && IsListed(r, directory, files[n]) ensures HasItem(r, after, files[n]) {
      ListedHasItem(r, items, directory, files, after, at, n);
    }
    forall j | |items| <= j < |after| ensures IsFromListing(r, directory, files, after[j]) {
      ItemIsListed(r, items, directory, files, after, at, j - |items|);
    }
  }

  /** A pending directory is listed under its own path. */
  lemma PendingDirectory(r: Roots, items: seq<Item>, failures: seq<Failure>, i: nat, files: seq<FtpFile>, behind: bool)
    requires AllPlaced(r, items) && i < |items| && IsPending(items[i])
    requires Applied(r, items, failures, items[i].remotePath, files, behind).Some?
    ensures Normalized(r.platform, items[i].remotePath) == Some(items[i].remotePath)
    ensures LocalPath(r, items[i].remotePath).Some?
  {
    assert Placed(r, items[i]);
    NormalizedAlready(r.platform, items[i].remotePath);
  }

  /** What one accepted answer does to the items. */
  ghost predicate AnswerTaken(r: Roots, items: seq<Item>, a: Answer, later: seq<Item>) {
    && Extends(items, later) && a.index < |items|
    && items[a.index].isDirectory && !items[a.index].scanned
    && (forall j :: 0 <= j < |items| ==> (later[j].scanned <==> items[j].scanned || j == a.index))
    && (if a.behind then |later| == |items|
        else
          && HoldsAll(r, later, items[a.index].remotePath, a.files)
          && forall j :: |items| <= j < |later| ==> IsFromListing(r, items[a.index].remotePath, a.files, later[j]))
  }

  lemma StepTakesAnswer(r: Roots, items: seq<Item>, failures: seq<Failure>, a: Answer)
    requires AllPlaced(r, items) && ScanStep(r, items, failures, a).Some?
    ensures AnswerTaken(r, items, a, ScanStep(r, items, failures, a).value.0)
  {
    var directory := items[a.index].remotePath;
    var (after, log) := Applied(r, items, failures, directory, a.files, a.behind).value;
    AppliedIsAccounted(r, items, failures, directory, a.files, a.behind);
    PendingDirectory(r, items, failures, a.index, a.files, a.behind);
    if !a.behind {
      AccountsHold(r, items, failures, directory, a.files, after, log);
      HoldsLater(r, after, after[a.index := after[a.index].(scanned := true)], directory, a.files);
    }
  }

  lemma TakenCompletes(r: Roots, first: seq<Item>, items: seq<Item>, answers: seq<Answer>, a: Answer, all: seq<Answer>,
    later: seq<Item>)
    requires ScanIsComplete(r, first, items, answers) && AnswerTaken(r, items, a, later) && EndsWith(all, answers, a)
    ensures ScanIsComplete(r, first, later, all)
  {
    AnswersHoldLater(r, items, later, answers, a, all);
    forall j | |items| <= j < |later| ensures IsFrom(r, later, later[j], a) {
      assert IsFromListing(r, items[a.index].remotePath, a.files, later[j]);
    }
    NothingElseLater(r, |first|, items, later, answers, a, all);
    AskedOnceMore(first, items, later, answers, a, all);
  }

  lemma StepKeepsItems(r: Roots, items: seq<Item>, failures: seq<Failure>, a: Answer)
    requires AllPlaced(r, items) && NoneShadowed(r, items) && ScanStep(r, items, failures, a).Some?
    ensures var later := ScanStep(r, items, failures, a).value.0; AllPlaced(r, later) && NoneShadowed(r, later)
  {
    AppliedKeepsItems(r, items, failures, items[a.index].remotePath, a.files, a.behind);
    ScannedKeeps(r, Applied(r, items, failures, items[a.index].remotePath, a.files, a.behind).value.0, a.index);
  }

  ghost predicate Complete(r: Roots, first: seq<Item>, items: seq<Item>, answers: seq<Answer>) {
    ScanIsComplete(r, first, items, answers) && AllPlaced(r, items) && NoneShadowed(r, items)
  }

  lemma NothingAnswered(r: Roots, first: seq<Item>)
    ensures ScanIsComplete(r, first, first, [])
  {
  }

  lemma StepCompletes(r: Roots, first: seq<Item>, items: seq<Item>, failures: seq<Failure>, answers: seq<Answer>, a: Answer,
    all: seq<Answer>)
    requires Complete(r, first, items, answers) && ScanStep(r, items, failures, a).Some? && EndsWith(all, answers, a)
    ensures Complete(r, first, ScanStep(r, items, failures, a).value.0, all)
  {
    StepTakesAnswer(r, items, failures, a);
    StepKeepsItems(r, items, failures, a);
    TakenCompletes(r, first, items, answers, a, all, ScanStep(r, items, failures, a).value.0);
  }

  lemma StepsButTheLast(r: Roots, first: seq<Item>, failures: seq<Failure>, answers: seq<Answer>)
    requires answers != [] && ScanSteps(r, first, failures, answers).Some?
    ensures var n := |answers| - 1;
      && ScanSteps(r, first, failures, answers[..n]).Some?
      && var (items, log) := ScanSteps(r, first, failures, answers[..n]).value;
         ScanSteps(r, first, failures, answers) == ScanStep(r, items, log, answers[n])
  {
  }

  /** After any scan the plan holds what the server answered for every directory it was asked
      for, and nothing else. */
  lemma {:induction false} AnswersAreComplete(r: Roots, first: seq<Item>, failures: seq<Failure>, answers: seq<Answer>,
    items: seq<Item>, log: seq<Failure>)
    requires AllPlaced(r, first) && NoneShadowed(r, first)
    requires ScanSteps(r, first, failures, answers) == Some((items, log))
    ensures Complete(r, first, items, answers)
    decreases |answers|
  {
    if answers == [] {
      NothingAnswered(r, first);
    } else {
      var n := |answers| - 1;
      StepsButTheLast(r, first, failures, answers);
      var (before, earlier) := ScanSteps(r, first, failures, answers[..n]).value;
      AnswersAreComplete(r, first, failures, answers[..n], before, earlier);
      StepCompletes(r, first, before, earlier, answers[..n], answers[n], answers);
    }
  }

  /** A scan that ends well has asked for every selected directory that was not yet scanned, the
      ones found on the way included, and holds what it was answered. */
  lemma EveryDirectoryIsHeld(r: Roots, first: seq<Item>, items: seq<Item>, answers: seq<Answer>, j: nat) returns (k: nat)
    requires ScanIsComplete(r, first, items, answers) && AllScanned(items, |items|) && j < |items|
    requires items[j].isDirectory && items[j].selected && !items[j].isLink && (j < |first| ==> !first[j].scanned)
    ensures k < |answers| && answers[k].index == j
    ensures !answers[k].behind ==> HoldsAll(r, items, items[j].remotePath, answers[k].files)
  {
    assert !IsPending(items[j]);
    assert IsAsked(answers, j);
    k :| 0 <= k < |answers| && answers[k].index == j;
  }
}
