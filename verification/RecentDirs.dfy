/** The list of recently used directories of a profile, and how it is saved and loaded. */
module RecentDirs {
  import opened Operations

  const MAX_RECENT: nat := 8

  function Position(dirs: seq<string>, path: string): (i: nat)
    ensures i <= |dirs| && path !in dirs[..i]
    ensures i < |dirs| ==> dirs[i] == path
  {
    if dirs == [] || dirs[0] == path then 0
    else
      var k := Position(dirs[1..], path);
      assert dirs[..k + 1] == [dirs[0]] + dirs[1..][..k];
      k + 1
  }

  function Without(dirs: seq<string>, path: string): seq<string> {
    var i := Position(dirs, path);
    if i == |dirs| then dirs else dirs[..i] + dirs[i + 1..]
  }

  function Front(dirs: seq<string>, n: nat): seq<string> {
    if |dirs| > n then dirs[..n] else dirs
  }

  /** A path moves or comes to the front; what is too much falls off the end. */
  function Added(dirs: seq<string>, path: string, maxCount: nat): seq<string> {
    if path == "" || maxCount == 0 then dirs else Front([path] + Without(dirs, path), maxCount)
  }

  function AddedAll(dirs: seq<string>, history: seq<string>, maxCount: nat): seq<string> {
    if history == [] then dirs
    else
      var n := |history| - 1;
      Added(AddedAll(dirs, history[..n], maxCount), history[n], maxCount)
  }

  // ---------- the most recently used ----------

  /** The uses that count: an empty path is refused. */
  function Uses(history: seq<string>): seq<string> {
    if history == [] then []
    else
      var n := |history| - 1;
      Uses(history[..n]) + if history[n] == "" then [] else [history[n]]
  }

  /** When a path was last used, or -1. */
  function LastUse(uses: seq<string>, path: string): (t: int)
    ensures -1 <= t < |uses|
    ensures t >= 0 <==> path in uses
    ensures t >= 0 ==> uses[t] == path
  {
    if uses == [] then -1
    else if uses[|uses| - 1] == path then |uses| - 1
    else
      assert uses == uses[..|uses| - 1] + [uses[|uses| - 1]];
      LastUse(uses[..|uses| - 1], path)
  }

  ghost predicate Descending(dirs: seq<string>, uses: seq<string>) {
    forall i, j :: 0 <= i < j < |dirs| ==> LastUse(uses, dirs[i]) > LastUse(uses, dirs[j])
  }

  /** Used less recently than everything in a full list. */
  ghost predicate FellOff(dirs: seq<string>, uses: seq<string>, maxCount: nat, path: string) {
    |dirs| == maxCount && forall i :: 0 <= i < |dirs| ==> LastUse(uses, dirs[i]) > LastUse(uses, path)
  }

  /** The last used paths, latest first, each once, up to `maxCount` of them. */
  ghost predicate AreMostRecent(dirs: seq<string>, uses: seq<string>, maxCount: nat) {
    && |dirs| <= maxCount && Descending(dirs, uses)
    && (forall i :: 0 <= i < |dirs| ==> dirs[i] in uses)
    && (forall path :: path in uses ==> path in dirs || FellOff(dirs, uses, maxCount, path))
  }

  lemma UseMore(uses: seq<string>, path: string, q: string)
    ensures LastUse(uses + [path], q) == if q == path then |uses| else LastUse(uses, q)
  {
    assert (uses + [path])[..|uses|] == uses;
  }

  lemma WithoutIsRest(dirs: seq<string>, uses: seq<string>, path: string)
    requires Descending(dirs, uses)
    ensures Descending(Without(dirs, path), uses) && path !in Without(dirs, path)
    ensures forall q :: q in Without(dirs, path) <==> q in dirs && q != path
    ensures |Without(dirs, path)| == if path in dirs then |dirs| - 1 else |dirs|
  {
    RestIs(dirs, path);
    RestDescends(dirs, uses, path);
    PathIsOnce(dirs, uses, path);
    forall q ensures q in Without(dirs, path) <==> q in dirs && q != path {
      RestMember(dirs, path, q);
    }
  }

  lemma RestDescends(dirs: seq<string>, uses: seq<string>, path: string)
    requires Descending(dirs, uses)
    ensures Descending(Without(dirs, path), uses)
  {
    RestIs(dirs, path);
    var p, rest := Position(dirs, path), Without(dirs, path);
    forall i, j | 0 <= i < j < |rest| ensures LastUse(uses, rest[i]) > LastUse(uses, rest[j]) {
      assert rest[i] == dirs[if i < p then i else i + 1] && rest[j] == dirs[if j < p then j else j + 1];
    }
  }

  lemma PathIsOnce(dirs: seq<string>, uses: seq<string>, path: string)
    requires Descending(dirs, uses)
    ensures forall k :: 0 <= k < |dirs| && k != Position(dirs, path) ==> dirs[k] != path
  {
    var i := Position(dirs, path);
    assert forall k :: 0 <= k < i ==> dirs[k] == dirs[..i][k] && dirs[k] in dirs[..i];
  }

  lemma RestMember(dirs: seq<string>, path: string, q: string)
    requires forall k :: 0 <= k < |dirs| && k != Position(dirs, path) ==> dirs[k] != path
    ensures q in Without(dirs, path) <==> q in dirs && q != path
  {
    if q in dirs && q != path {
      StaysInRest(dirs, path, q);
    }
    if q in Without(dirs, path) {
      ComesFromList(dirs, path, q);
    }
  }

  lemma StaysInRest(dirs: seq<string>, path: string, q: string)
    requires q in dirs && q != path
    ensures q in Without(dirs, path)
  {
    RestIs(dirs, path);
    var i := Position(dirs, path);
    var k :| 0 <= k < |dirs| && dirs[k] == q;
    assert Without(dirs, path)[if k < i then k else k - 1] == q;
  }

  lemma ComesFromList(dirs: seq<string>, path: string, q: string)
    requires forall k :: 0 <= k < |dirs| && k != Position(dirs, path) ==> dirs[k] != path
    requires q in Without(dirs, path)
    ensures q in dirs && q != path
  {
    RestIs(dirs, path);
    var i, rest := Position(dirs, path), Without(dirs, path);
    var k :| 0 <= k < |rest| && rest[k] == q;
    assert dirs[if k < i then k else k + 1] == q;
  }

  lemma RestIs(dirs: seq<string>, path: string)
    ensures var i, rest := Position(dirs, path), Without(dirs, path);
      && |rest| == (if i < |dirs| then |dirs| - 1 else |dirs|)
      && (forall k :: 0 <= k < |rest| ==> rest[k] == dirs[if k < i then k else k + 1])
      && (forall k :: 0 <= k < |dirs| && k != i ==> dirs[k] == rest[if k < i then k else k - 1])
  {
    var i := Position(dirs, path);
    if i < |dirs| {
      Shifted(dirs, i);
    }
  }

  lemma Shifted(s: seq<string>, i: nat)
    requires i < |s|
    ensures var t := s[..i] + s[i + 1..];
      && |t| == |s| - 1
      && (forall k :: 0 <= k < |t| ==> t[k] == s[if k < i then k else k + 1])
      && (forall k :: 0 <= k < |s| && k != i ==> s[k] == t[if k < i then k else k - 1])
  {
    var t := s[..i] + s[i + 1..];
    forall k | 0 <= k < |t| ensures t[k] == s[if k < i then k else k + 1] { }
    forall k | 0 <= k < |s| && k != i ensures s[k] == t[if k < i then k else k - 1] { }
  }

  /** In a list in order of use a path that has been put in front comes before the others. */
  lemma InFront(dirs: seq<string>, uses: seq<string>, path: string)
    requires Descending(dirs, uses)
    ensures Descending([path] + Without(dirs, path), uses + [path])
  {
    WithoutIsRest(dirs, uses, path);
    StillDescending(Without(dirs, path), uses, path);
  }

  lemma StillDescending(rest: seq<string>, uses: seq<string>, path: string)
    requires Descending(rest, uses) && path !in rest
    ensures Descending([path] + rest, uses + [path])
  {
    var more := [path] + rest;
    forall j | 0 <= j < |rest| ensures LastUse(uses + [path], rest[j]) == LastUse(uses, rest[j]) < |uses| {
      assert rest[j] in rest;
      UseMore(uses, path, rest[j]);
    }
    UseMore(uses, path, path);
    assert forall j :: 0 < j < |more| ==> more[j] == rest[j - 1];
  }

  lemma FrontKeepsOrder(dirs: seq<string>, uses: seq<string>, n: nat)
    requires Descending(dirs, uses)
    ensures Descending(Front(dirs, n), uses)
    ensures forall path :: path in dirs && path !in Front(dirs, n) ==> FellOff(Front(dirs, n), uses, n, path)
  {
    forall path | path in dirs && path !in Front(dirs, n) ensures FellOff(Front(dirs, n), uses, n, path) {
      var k :| 0 <= k < |dirs| && dirs[k] == path;
      assert forall i :: 0 <= i < |Front(dirs, n)| ==> Front(dirs, n)[i] == dirs[i] && dirs[i] in Front(dirs, n);
    }
  }

  lemma AddKeepsMostRecent(dirs: seq<string>, uses: seq<string>, path: string, maxCount: nat)
    requires AreMostRecent(dirs, uses, maxCount) && path != "" && maxCount > 0
    ensures AreMostRecent(Added(dirs, path, maxCount), uses + [path], maxCount)
  {
    var more := [path] + Without(dirs, path);
    var after := Front(more, maxCount);
    WithoutIsRest(dirs, uses, path);
    InFront(dirs, uses, path);
    FrontKeepsOrder(more, uses + [path], maxCount);
    forall q | q in uses + [path] ensures q in after || FellOff(after, uses + [path], maxCount, q) {
      if q !in more {
        StaysOff(dirs, uses, path, maxCount, q);
      }
    }
    forall i | 0 <= i < |after| ensures after[i] in uses + [path] {
      assert after[i] == more[i] && more[i] in more;
    }
  }

  lemma StaysOff(dirs: seq<string>, uses: seq<string>, path: string, maxCount: nat, q: string)
    requires AreMostRecent(dirs, uses, maxCount) && path != "" && maxCount > 0
    requires q in uses + [path] && q != path && q !in dirs
    ensures FellOff(Added(dirs, path, maxCount), uses + [path], maxCount, q)
  {
    var after := Added(dirs, path, maxCount);
    WithoutIsRest(dirs, uses, path);
    assert FellOff(dirs, uses, maxCount, q);
    UseMore(uses, path, q);
    forall i | 0 <= i < |after| ensures LastUse(uses + [path], after[i]) > LastUse(uses + [path], q) {
      UseMore(uses, path, after[i]);
      if i > 0 {
        assert after[i] in Without(dirs, path);
        var k :| 0 <= k < |dirs| && dirs[k] == after[i];
      }
    }
  }

  /** After any history the list holds the most recently used paths. */
  lemma {:induction false} HistoryGivesMostRecent(history: seq<string>, maxCount: nat)
    requires maxCount > 0
    ensures AreMostRecent(AddedAll([], history, maxCount), Uses(history), maxCount)
  {
    if history != [] {
      var n := |history| - 1;
      HistoryGivesMostRecent(history[..n], maxCount);
      if history[n] != "" {
        AddKeepsMostRecent(AddedAll([], history[..n], maxCount), Uses(history[..n]), history[n], maxCount);
      } else {
        assert Uses(history[..n]) + [] == Uses(history[..n]);
      }
    }
  }

  lemma NotBefore(dirs: seq<string>, uses: seq<string>, k: nat)
    requires Descending(dirs, uses) && k < |dirs|
    ensures dirs[k] !in dirs[..k]
  {
    assert forall i :: 0 <= i < k ==> dirs[..k][i] == dirs[i];
  }

  /** The k-th path is the latest of those that do not come before it. */
  lemma NextIsLatest(dirs: seq<string>, uses: seq<string>, maxCount: nat, k: nat, path: string)
    requires AreMostRecent(dirs, uses, maxCount) && k <= |dirs| && path in uses && path !in dirs[..k]
    ensures k < |dirs| || |dirs| == maxCount
    ensures k < |dirs| ==> LastUse(uses, path) <= LastUse(uses, dirs[k])
  {
    if path in dirs {
      var j :| 0 <= j < |dirs| && dirs[j] == path;
      assert j >= k by {
        assert forall i :: 0 <= i < k ==> dirs[i] in dirs[..k];
      }
    } else {
      assert FellOff(dirs, uses, maxCount, path);
    }
  }

  /** There is only one such list. */
  lemma MostRecentIsUnique(a: seq<string>, b: seq<string>, uses: seq<string>, maxCount: nat)
    requires AreMostRecent(a, uses, maxCount) && AreMostRecent(b, uses, maxCount)
    ensures a == b
  {
    SameAsFar(a, b, uses, maxCount, |a|);
    SameAsFar(b, a, uses, maxCount, |b|);
    assert a[..|a|] == a && b[..|b|] == b;
  }

  lemma {:induction false} SameAsFar(a: seq<string>, b: seq<string>, uses: seq<string>, maxCount: nat, n: nat)
    requires AreMostRecent(a, uses, maxCount) && AreMostRecent(b, uses, maxCount) && n <= |a|
    ensures n <= |b| && a[..n] == b[..n]
  {
    if n > 0 {
      var k := n - 1;
      SameAsFar(a, b, uses, maxCount, k);
      NotBefore(a, uses, k);
      NextIsLatest(b, uses, maxCount, k, a[k]);
      NotBefore(b, uses, k);
      NextIsLatest(a, uses, maxCount, k, b[k]);
      assert a[..n] == a[..k] + [a[k]] && b[..n] == b[..k] + [b[k]];
    }
  }

  // ---------- saving and loading ----------

  function Reversed(s: seq<string>): seq<string> {
    if s == [] then [] else Reversed(s[1..]) + [s[0]]
  }

  ghost predicate IsRecentList(dirs: seq<string>) {
    && |dirs| <= MAX_RECENT && (forall i :: 0 <= i < |dirs| ==> dirs[i] != "")
    && forall i, j :: 0 <= i < j < |dirs| ==> dirs[i] != dirs[j]
  }

  lemma NotThere(dirs: seq<string>, path: string)
    requires path !in dirs
    ensures Without(dirs, path) == dirs
  {
  }

  /** Loading what was saved gives the list back. */
  lemma {:induction false} LoadUndoesSave(dirs: seq<string>)
    requires IsRecentList(dirs)
    ensures AddedAll([], Reversed(dirs), MAX_RECENT) == dirs
  {
    if dirs != [] {
      var rest, reversed := dirs[1..], Reversed(dirs);
      LoadUndoesSave(rest);
      assert reversed[..|reversed| - 1] == Reversed(rest);
      assert forall k :: 0 <= k < |rest| ==> rest[k] == dirs[k + 1] && rest[k] != dirs[0];
      NotThere(rest, dirs[0]);
      assert [dirs[0]] + rest == dirs;
    }
  }

  lemma {:induction false} AddedIsRecentList(dirs: seq<string>, path: string)
    requires IsRecentList(dirs)
    ensures IsRecentList(Added(dirs, path, MAX_RECENT))
  {
    var i, rest := Position(dirs, path), Without(dirs, path);
    if i < |dirs| {
      assert forall k :: 0 <= k < |rest| ==> rest[k] == dirs[if k < i then k else k + 1];
    } else {
      assert dirs[..i] == dirs;
    }
    assert forall k :: 0 <= k < |rest| ==> rest[k] != path by {
      assert forall k :: 0 <= k < i ==> dirs[k] == dirs[..i][k] && dirs[..i][k] in dirs[..i];
    }
  }

  class FTPProfile {
    var recentDirs: seq<string>

    constructor ()
      ensures recentDirs == []
    {
      recentDirs := [];
    }

    ghost predicate Valid()
      reads this
    {
      IsRecentList(recentDirs)
    }

    /** The path is missing when the caller has none. */
    method AddRecentDir(path: Option<string>) returns (result: int)
      requires Valid()
      modifies this
      ensures Valid()
      ensures result == if path.Some? && path.value != "" then 0 else -1
      ensures recentDirs == if path.Some? then Added(old(recentDirs), path.value, MAX_RECENT) else old(recentDirs)
    {
      if path.None? || path.value == "" || MAX_RECENT == 0 {
        return -1;
      }
      AddedIsRecentList(recentDirs, path.value);
      EraseExisting(path.value);
      recentDirs := [path.value] + recentDirs;
      if |recentDirs| > MAX_RECENT {
        recentDirs := recentDirs[..MAX_RECENT];
      }
      result := 0;
    }

    method EraseExisting(path: string)
      modifies this
      ensures recentDirs == Without(old(recentDirs), path)
    {
      var existing := 0;
      while existing < |recentDirs| && recentDirs[existing] != path
        invariant existing <= |recentDirs| && path !in recentDirs[..existing]
      {
        assert recentDirs[..existing + 1] == recentDirs[..existing] + [recentDirs[existing]];
        existing := existing + 1;
      }
      SamePosition(recentDirs, path, existing);
      if existing != |recentDirs| {
        recentDirs := recentDirs[..existing] + recentDirs[existing + 1..];
      }
    }

    /** The paths as they are written, in order. */
    method SaveRecentDirs() returns (saved: seq<string>)
      ensures saved == recentDirs
    {
      saved := [];
      for i := 0 to |recentDirs|
        invariant saved == recentDirs[..i]
      {
        saved := saved + [recentDirs[i]];
      }
    }

    /** From the last path to the first, so that the first becomes the latest. */
    method LoadRecentDirs(saved: seq<string>)
      requires Valid()
      modifies this
      ensures Valid() && recentDirs == AddedAll(old(recentDirs), Reversed(saved), MAX_RECENT)
    {
      var i := |saved|;
      assert saved[i..] == [];
      while i > 0
        invariant i <= |saved| && Valid()
        invariant recentDirs == AddedAll(old(recentDirs), Reversed(saved[i..]), MAX_RECENT)
      {
        i := i - 1;
        ghost var all := Reversed(saved[i..]);
        assert saved[i..][1..] == saved[i + 1..];
        assert all[..|all| - 1] == Reversed(saved[i + 1..]);
        var added := AddRecentDir(Some(saved[i]));
      }
      assert saved[0..] == saved;
    }
  }

  lemma SamePosition(dirs: seq<string>, path: string, i: nat)
    requires i <= |dirs| && path !in dirs[..i] && (i < |dirs| ==> dirs[i] == path)
    ensures Position(dirs, path) == i
  {
    var k := Position(dirs, path);
    assert forall j :: 0 <= j < i ==> dirs[j] == dirs[..i][j] && dirs[j] in dirs[..i];
    assert forall j :: 0 <= j < k ==> dirs[j] == dirs[..k][j] && dirs[j] in dirs[..k];
  }

  /** A profile that is saved and loaded again has the list it had. */
  method SaveThenLoad(profile: FTPProfile) returns (loaded: FTPProfile)
    requires profile.Valid()
    ensures fresh(loaded) && loaded.Valid() && loaded.recentDirs == profile.recentDirs
  {
    var saved := profile.SaveRecentDirs();
    loaded := new FTPProfile();
    loaded.LoadRecentDirs(saved);
    LoadUndoesSave(saved);
  }
}
