/** Remote paths, the local names they are turned into, and the local path of an item. */
module RemotePaths {
  import opened Operations
  import opened ListingOrder

  /** The parts of the platform the plan depends on: turning a name from UTF-8 into local
      characters, and folding case the way the file system compares names. */
  datatype Platform = Platform(convert: string -> Option<string>, fold: string -> string)

  function IndexOf(s: string, c: char): (i: nat)
    ensures i <= |s|
    ensures i < |s| ==> s[i] == c
    ensures c !in s[..i]
  {
    if s == "" then 0
    else if s[0] == c then 0
    else
      var k := IndexOf(s[1..], c);
      assert s[..k + 1] == [s[0]] + s[1..][..k];
      k + 1
  }

  function Upper(s: string): string {
    if s == "" then ""
    else [if 'a' <= s[0] <= 'z' then s[0] - 'a' + 'A' else s[0]] + Upper(s[1..])
  }

  function StripSlashes(s: string, atLeast: nat): (t: string)
    ensures t <= s && (|t| > atLeast ==> t[|t| - 1] != '/')
    ensures |s| >= atLeast ==> |t| >= atLeast
    ensures s != "" && s[|s| - 1] != '/' ==> t == s
    ensures forall i :: |t| <= i < |s| ==> s[i] == '/'
  {
    if |s| > atLeast && s[|s| - 1] == '/' then StripSlashes(s[..|s| - 1], atLeast) else s
  }

  /** One backslash at the end, and never a second one. */
  function WithBackslash(path: string): (r: string)
    ensures path <= r && r != "" && r[|r| - 1] == '\\'
    ensures |r| <= |path| + 1 && (|r| > 1 && r[|r| - 2] == '\\' ==> r == path)
  {
    if path != "" && path[|path| - 1] == '\\' then path else path + "\\"
  }

  predicate IsReservedDeviceName(name: string) {
    var stem := Upper(name[..IndexOf(name, '.')]);
    || stem in ["CON", "PRN", "AUX", "NUL"]
    || (|stem| == 4 && '1' <= stem[3] <= '9' && stem[..3] in ["COM", "LPT"])
  }

  predicate IsLocalNameValid(name: string) {
    && name != "" && name != "." && name != ".." && |name| < MAX_PATH
    && name[|name| - 1] != '.' && name[|name| - 1] != ' '
    && !IsReservedDeviceName(name)
    && forall i :: 0 <= i < |name| ==> name[i] >= ' ' && name[i] !in "\\/:*?\"<>|"
  }

  predicate IsRemoteSegment(segment: string) {
    && segment != "" && |segment| < MAX_PATH && segment != "." && segment != ".."
    && '/' !in segment && '\\' !in segment
  }

  /** The local name of one remote segment, when it has one. */
  function LocalName(p: Platform, segment: string): (r: Option<string>)
    ensures r.Some? ==> IsRemoteSegment(segment) && IsLocalNameValid(r.value)
  {
    if !IsRemoteSegment(segment) then None
    else
      match p.convert(segment)
      case None => None
      case Some(name) => if IsLocalNameValid(name) then Some(name) else None
  }

  predicate HasRemotePrefix(root: string, path: string) {
    path == root || (|root| < |path| && path[..|root|] == root && path[|root|] == '/')
  }

  /** Local path names of the segments, in order; a slash at the end is passed over. */
  function LocalSegments(p: Platform, relative: string): Option<seq<string>>
    decreases |relative|
  {
    if relative == "" then Some([])
    else
      var next := IndexOf(relative, '/');
      var name := LocalName(p, relative[..next]);
      if name.None? then None
      else if next == |relative| then Some([name.value])
      else
        var rest := LocalSegments(p, relative[next + 1..]);
        if rest.None? then None else Some([name.value] + rest.value)
  }

  function JoinLocalPath(root: string, segments: seq<string>): Option<string> {
    if segments == [] then Some(root)
    else
      var n := |segments| - 1;
      var parent := JoinLocalPath(root, segments[..n]);
      if parent.None? || |parent.value| + 1 + |segments[n]| >= MAX_PATH then None
      else Some(parent.value + "\\" + segments[n])
  }

  function LocalPathOf(p: Platform, localRoot: string, remoteRoot: string, path: string): Option<string> {
    if |path| >= MAX_PATH || !HasRemotePrefix(remoteRoot, path) then None
    else
      var relative := if |path| > |remoteRoot| then path[|remoteRoot| + 1..] else "";
      var segments := LocalSegments(p, relative);
      if segments.None? then None else JoinLocalPath(localRoot, segments.value)
  }

  // ---------- a child's local path lies below its directory's ----------

  lemma {:induction false} IndexAt(s: string, t: string, c: char)
    requires c !in s
    ensures IndexOf(s + [c] + t, c) == |s| && IndexOf(s, c) == |s|
    decreases |s|
  {
    var u := s + [c] + t;
    if s != "" {
      assert u[0] == s[0] && s[0] in s;
      assert u[1..] == s[1..] + [c] + t;
      IndexAt(s[1..], t, c);
    }
  }

  /** One turn of the loop over segments, when a slash follows. */
  lemma SegmentsAfterSlash(p: Platform, relative: string, first: string, rest: string)
    requires relative == first + "/" + rest && '/' !in first
    ensures LocalSegments(p, relative) ==
      if LocalName(p, first).None? || LocalSegments(p, rest).None? then None
      else Some([LocalName(p, first).value] + LocalSegments(p, rest).value)
  {
    IndexAt(first, rest, '/');
    assert relative[..|first|] == first && relative[|first| + 1..] == rest;
  }

  lemma SlashRegroups(first: string, rest: string, child: string)
    ensures (first + "/" + rest) + "/" + child == first + "/" + (rest + "/" + child)
  {
  }

  lemma NamesRegroup(first: string, rest: seq<string>, name: string)
    ensures [first] + (rest + [name]) == ([first] + rest) + [name]
  {
  }

  /** What an item of a listing looks like next to the directory that was listed. */
  predicate IsChildPath(parent: string, path: string) {
    |parent| + 1 < |path| && path[..|parent|] == parent && path[|parent|] == '/'
  }

  predicate IsChildLocalPath(parent: string, path: string) {
    |parent| + 1 < |path| && path[..|parent|] == parent && path[|parent|] == '\\'
  }

  lemma ChildLocalPath(p: Platform, localRoot: string, remoteRoot: string, directory: string, child: string, name: string)
    requires LocalName(p, child) == Some(name)
    requires HasRemotePrefix(remoteRoot, directory) && directory != "" && directory[|directory| - 1] != '/'
    requires LocalPathOf(p, localRoot, remoteRoot, directory).Some?
    requires LocalPathOf(p, localRoot, remoteRoot, directory + "/" + child).Some?
    ensures LocalPathOf(p, localRoot, remoteRoot, directory + "/" + child).value
         == LocalPathOf(p, localRoot, remoteRoot, directory).value + "\\" + name
  {
    LocalPathOneDeeper(p, localRoot, remoteRoot, directory, child);
  }

  // ---------- exactly which paths have a local form ----------

  lemma {:induction false} SegmentsOfOneMore(p: Platform, relative: string, child: string)
    requires child != "" && '/' !in child && relative != "" && relative[|relative| - 1] != '/'
    ensures LocalSegments(p, relative + "/" + child) ==
      if LocalSegments(p, relative).None? || LocalName(p, child).None? then None
      else Some(LocalSegments(p, relative).value + [LocalName(p, child).value])
    decreases |relative|
  {
    var next := IndexOf(relative, '/');
    var first := relative[..next];
    if next == |relative| {
      assert first == relative;
      SegmentsAfterSlash(p, relative + "/" + child, first, child);
      SegmentsOfName(p, child);
      SegmentsOfName(p, relative);
    } else {
      var rest := relative[next + 1..];
      assert relative == first + "/" + rest;
      assert rest != "" && rest[|rest| - 1] == relative[|relative| - 1];
      SegmentsAfterSlash(p, relative, first, rest);
      SegmentsOfOneMore(p, rest, child);
      SlashRegroups(first, rest, child);
      SegmentsAfterSlash(p, relative + "/" + child, first, rest + "/" + child);
      if LocalName(p, first).Some? && LocalSegments(p, rest).Some? && LocalName(p, child).Some? {
        NamesRegroup(LocalName(p, first).value, LocalSegments(p, rest).value, LocalName(p, child).value);
      }
    }
  }

  /** Two relative paths with local forms make one. */
  lemma {:induction false} SegmentsOfBoth(p: Platform, relative: string, more: string)
    requires relative != "" && relative[|relative| - 1] != '/'
    requires LocalSegments(p, relative).Some? && LocalSegments(p, more).Some?
    ensures LocalSegments(p, relative + "/" + more).Some?
    decreases |relative|
  {
    var next := IndexOf(relative, '/');
    var first := relative[..next];
    if next == |relative| {
      assert first == relative;
      SegmentsAfterSlash(p, relative + "/" + more, first, more);
    } else {
      var rest := relative[next + 1..];
      assert relative == first + "/" + rest;
      assert rest != "" && rest[|rest| - 1] == relative[|relative| - 1];
      SegmentsAfterSlash(p, relative, first, rest);
      SegmentsOfBoth(p, rest, more);
      SlashRegroups(first, rest, more);
      SegmentsAfterSlash(p, relative + "/" + more, first, rest + "/" + more);
    }
  }

  lemma SegmentsOfName(p: Platform, child: string)
    requires child != "" && '/' !in child
    ensures LocalSegments(p, child) == if LocalName(p, child).None? then None else Some([LocalName(p, child).value])
  {
    var next := IndexOf(child, '/');
    assert next == |child| && child[..next] == child;
  }

  lemma JoinOfOneMore(root: string, segments: seq<string>, name: string)
    ensures JoinLocalPath(root, segments + [name]) ==
      var parent := JoinLocalPath(root, segments);
      if parent.None? || |parent.value| + 1 + |name| >= MAX_PATH then None else Some(parent.value + "\\" + name)
  {
    assert (segments + [name])[..|segments|] == segments;
  }

  /** The local path of the root is the local root. */
  lemma RootLocalPath(p: Platform, localRoot: string, remoteRoot: string)
    ensures LocalPathOf(p, localRoot, remoteRoot, remoteRoot) == if |remoteRoot| < MAX_PATH then Some(localRoot) else None
  {
    assert LocalSegments(p, "") == Some([]);
  }

  /** What lies one name below a directory has a local path exactly when the directory has
      one, the name has a local form, and both paths stay short enough; it is then the local
      path of the directory, a separator and the local name. */
  lemma LocalPathOneDeeper(p: Platform, localRoot: string, remoteRoot: string, directory: string, child: string)
    requires HasRemotePrefix(remoteRoot, directory) && directory != "" && directory[|directory| - 1] != '/'
    requires child != "" && '/' !in child
    ensures var parent, name := LocalPathOf(p, localRoot, remoteRoot, directory), LocalName(p, child);
      LocalPathOf(p, localRoot, remoteRoot, directory + "/" + child) ==
        if parent.Some? && name.Some? && |directory| + 1 + |child| < MAX_PATH && |parent.value| + 1 + |name.value| < MAX_PATH
        then Some(parent.value + "\\" + name.value) else None
  {
    if directory == remoteRoot {
      OneBelowRoot(p, localRoot, remoteRoot, child);
    } else {
      OneBelowDirectory(p, localRoot, remoteRoot, directory, child);
    }
  }

  lemma OneBelowRoot(p: Platform, localRoot: string, remoteRoot: string, child: string)
    requires child != "" && '/' !in child
    ensures LocalPathOf(p, localRoot, remoteRoot, remoteRoot + "/" + child) ==
      var name := LocalName(p, child);
      if name.Some? && |remoteRoot| + 1 + |child| < MAX_PATH && |localRoot| + 1 + |name.value| < MAX_PATH
      then Some(localRoot + "\\" + name.value) else None
    ensures LocalPathOf(p, localRoot, remoteRoot, remoteRoot) == if |remoteRoot| < MAX_PATH then Some(localRoot) else None
  {
    assert (remoteRoot + "/" + child)[|remoteRoot| + 1..] == child;
    RootLocalPath(p, localRoot, remoteRoot);
    SegmentsOfName(p, child);
    if LocalName(p, child).Some? {
      JoinOfOneMore(localRoot, [], LocalName(p, child).value);
      assert [] + [LocalName(p, child).value] == [LocalName(p, child).value];
    }
  }

  lemma OneBelowDirectory(p: Platform, localRoot: string, remoteRoot: string, directory: string, child: string)
    requires HasRemotePrefix(remoteRoot, directory) && directory != remoteRoot && directory[|directory| - 1] != '/'
    requires child != "" && '/' !in child
    ensures var parent, name := LocalPathOf(p, localRoot, remoteRoot, directory), LocalName(p, child);
      LocalPathOf(p, localRoot, remoteRoot, directory + "/" + child) ==
        if parent.Some? && name.Some? && |directory| + 1 + |child| < MAX_PATH && |parent.value| + 1 + |name.value| < MAX_PATH
        then Some(parent.value + "\\" + name.value) else None
  {
    var relative := directory[|remoteRoot| + 1..];
    RelativeOfChild(remoteRoot, directory, child);
    SegmentsOfOneMore(p, relative, child);
    LocalPathFrom(p, localRoot, remoteRoot, directory, relative);
    LocalPathFrom(p, localRoot, remoteRoot, directory + "/" + child, relative + "/" + child);
    if LocalSegments(p, relative).Some? && LocalName(p, child).Some? {
      JoinOfOneMore(localRoot, LocalSegments(p, relative).value, LocalName(p, child).value);
    }
  }

  lemma LocalPathFrom(p: Platform, localRoot: string, remoteRoot: string, path: string, relative: string)
    requires HasRemotePrefix(remoteRoot, path) && path != remoteRoot && relative == path[|remoteRoot| + 1..]
    ensures LocalPathOf(p, localRoot, remoteRoot, path) ==
      if |path| >= MAX_PATH || LocalSegments(p, relative).None? then None
      else JoinLocalPath(localRoot, LocalSegments(p, relative).value)
  {
  }

  lemma RelativeOfChild(remoteRoot: string, directory: string, child: string)
    requires HasRemotePrefix(remoteRoot, directory) && directory != remoteRoot && directory[|directory| - 1] != '/'
    ensures HasRemotePrefix(remoteRoot, directory + "/" + child) && directory + "/" + child != remoteRoot
    ensures var relative := directory[|remoteRoot| + 1..];
      && relative != "" && relative[|relative| - 1] == directory[|directory| - 1]
      && (directory + "/" + child)[|remoteRoot| + 1..] == relative + "/" + child
  {
    assert directory[|remoteRoot|] == '/';
  }

  lemma {:induction false} JoinedIsBelow(root: string, segments: seq<string>)
    requires JoinLocalPath(root, segments).Some?
    ensures var r := JoinLocalPath(root, segments).value; r == root || (root <= r && |root| < |r| && r[|root|] == '\\')
    decreases |segments|
  {
    if segments != [] {
      JoinedIsBelow(root, segments[..|segments| - 1]);
    }
  }

  /** Every local path is the local root or lies below it. */
  predicate IsInsideRoot(root: string, path: string) {
    path == root || (root <= path && |root| < |path| && path[|root|] == '\\')
  }

  lemma LocalPathIsInsideRoot(p: Platform, localRoot: string, remoteRoot: string, path: string)
    requires LocalPathOf(p, localRoot, remoteRoot, path).Some?
    ensures IsInsideRoot(localRoot, LocalPathOf(p, localRoot, remoteRoot, path).value)
  {
    var relative := if |path| > |remoteRoot| then path[|remoteRoot| + 1..] else "";
    JoinedIsBelow(localRoot, LocalSegments(p, relative).value);
  }

  // ---------- the loops over segments ----------

  function From(path: string, offset: nat): string {
    if offset < |path| then path[offset..] else ""
  }

  function Prepended(segments: seq<string>, rest: Option<seq<string>>): Option<seq<string>> {
    if rest.Some? then Some(segments + rest.value) else None
  }

  lemma FirstSegment(p: Platform, rest: string)
    requires rest != ""
    ensures var next := IndexOf(rest, '/');
      var name := LocalName(p, rest[..next]);
      LocalSegments(p, rest)
        == if name.None? then None else Prepended([name.value], LocalSegments(p, From(rest, next + 1)))
  {
    var next := IndexOf(rest, '/');
    var name := LocalName(p, rest[..next]);
    assert From(rest, next + 1) == if next < |rest| then rest[next + 1..] else "";
    if name.Some? && next == |rest| {
      assert [name.value] + [] == [name.value];
    }
  }

  lemma PrependTwice(a: seq<string>, b: seq<string>, o: Option<seq<string>>)
    ensures Prepended(a, Prepended(b, o)) == Prepended(a + b, o)
  {
    if o.Some? {
      assert a + (b + o.value) == a + b + o.value;
    }
  }

  lemma PrependNone(o: Option<seq<string>>)
    ensures Prepended([], o) == o
  {
    if o.Some? {
      assert [] + o.value == o.value;
    }
  }

  lemma {:induction false} JoinFailsOn(root: string, segments: seq<string>, n: nat)
    requires n <= |segments| && JoinLocalPath(root, segments[..n]).None?
    ensures JoinLocalPath(root, segments).None?
    decreases |segments| - n
  {
    if n < |segments| {
      assert segments[..n + 1][..n] == segments[..n];
      JoinFailsOn(root, segments, n + 1);
    } else {
      assert segments[..n] == segments;
    }
  }
}
