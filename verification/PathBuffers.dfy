/** The two simplifications as they run: over an output buffer with a stack of marks, and over
    a list of names that is shortened in place and then written out. */
module PathBuffers {
  import opened Operations
  import opened RemotePaths
  import opened PathSimplifier

  /** The buffer holds a text and its terminator. */
  ghost predicate Holds(buffer: seq<char>, text: string) {
    && |text| < |buffer| && buffer[|text|] == '\0'
    && forall k :: 0 <= k < |text| ==> buffer[k] == text[k]
  }

  // ---------- taking a path apart ----------

  lemma SkipSlash(s: string, i: nat)
    requires i < |s| && s[i] == '/'
    ensures Components(s[i..]) == Components(s[i + 1..])
  {
    assert s[i..][0] == '/' && s[i..][1..] == s[i + 1..];
  }

  lemma FirstComponent(s: string, i: nat, j: nat)
    requires i < j <= |s| && '/' !in s[i..j] && (j < |s| ==> s[j] == '/')
    ensures Components(s[i..]) == [s[i..j]] + Components(s[j..])
  {
    var name, tail := s[i..j], s[j..];
    assert s[i..] == name + tail;
    NameBeforeSlash(name, tail);
  }

  method SkipSlashes(s: string, start: nat) returns (segment: nat)
    requires start <= |s|
    ensures start <= segment <= |s| && (segment < |s| ==> s[segment] != '/')
    ensures Components(s[segment..]) == Components(s[start..])
  {
    segment := start;
    while segment < |s| && s[segment] == '/'
      invariant start <= segment <= |s|
      invariant Components(s[segment..]) == Components(s[start..])
    {
      SkipSlash(s, segment);
      segment := segment + 1;
    }
  }

  method SkipName(s: string, segment: nat) returns (next: nat)
    requires segment <= |s|
    ensures segment <= next <= |s| && '/' !in s[segment..next] && (next < |s| ==> s[next] == '/')
  {
    next := segment;
    while next < |s| && s[next] != '/'
      invariant segment <= next <= |s| && '/' !in s[segment..next]
    {
      assert s[segment..next + 1] == s[segment..next] + [s[next]];
      next := next + 1;
    }
  }

  /** The next piece between slashes, empty only at the end. */
  method NextSegment(s: string, start: nat) returns (segment: nat, next: nat)
    requires start < |s|
    ensures start <= segment <= next <= |s| && start < next
    ensures Components(s[start..]) == WithFirst(NameOf(s[segment..next]), Components(s[next..]))
  {
    segment := SkipSlashes(s, start);
    next := SkipName(s, segment);
    if segment < next {
      FirstComponent(s, segment, next);
    }
  }

  function NameOf(piece: string): seq<string> {
    if piece == "" then [] else [piece]
  }

  function WithFirst(names: seq<string>, rest: seq<string>): seq<string> {
    if names == [] then rest else names + rest
  }

  // ---------- in place ----------

  /** The marks tell where the text of every shorter stack ends. */
  ghost predicate Marked(marks: seq<nat>, stack: seq<string>) {
    |stack| <= |marks| && forall i :: 0 <= i < |stack| ==> marks[i] == |Rendered(stack[..i])|
  }

  ghost predicate NoneEmpty(stack: seq<string>) {
    forall i :: 0 <= i < |stack| ==> stack[i] != ""
  }

  function Separated(text: string, first: bool, name: string): string {
    text + (if first then "" else "/") + name
  }

  lemma RenderedWith(stack: seq<string>, c: string)
    ensures Rendered(stack + [c]) == Separated(Rendered(stack), stack == [], c)
  {
    assert (stack + [c])[..|stack|] == stack;
  }

  lemma RootIsShortest(stack: seq<string>)
    requires NoneEmpty(stack)
    ensures |Rendered(stack)| > 1 <==> stack != []
  {
  }

  lemma AfterPop(buffer: seq<char>, marks: seq<nat>, stack: seq<string>)
    requires Holds(buffer, Rendered(stack)) && Marked(marks, stack) && stack != []
    ensures var n := |stack| - 1;
      marks[n] == |Rendered(stack[..n])| < |buffer| && Holds(buffer[marks[n] := '\0'], Rendered(stack[..n]))
  {
    var n := |stack| - 1;
    var front := Rendered(stack[..n]);
    assert stack[..n] + [stack[n]] == stack;
    RenderedWith(stack[..n], stack[n]);
    assert forall k :: 0 <= k < |front| ==> front[k] == Rendered(stack)[k];
  }

  lemma MarkedFront(marks: seq<nat>, stack: seq<string>, n: nat)
    requires Marked(marks, stack) && n <= |stack|
    ensures Marked(marks, stack[..n])
  {
    assert forall i :: 0 <= i < n ==> stack[..n][..i] == stack[..i];
  }

  lemma MarkedMore(marks: seq<nat>, stack: seq<string>, c: string)
    requires Marked(marks, stack) && |stack| < |marks|
    ensures Marked(marks[|stack| := |Rendered(stack)|], stack + [c])
  {
    var more := stack + [c];
    assert more[..|stack|] == stack;
    assert forall i :: 0 <= i < |stack| ==> more[..i] == stack[..i];
  }

  /** `memcpy` of a piece of text. */
  method CopyText(buffer: array<char>, at: nat, text: string)
    requires at + |text| <= buffer.Length
    modifies buffer
    ensures forall k :: 0 <= k < buffer.Length ==>
      buffer[k] == if at <= k < at + |text| then text[k - at] else old(buffer[k])
  {
    for i := 0 to |text|
      invariant forall k :: 0 <= k < buffer.Length ==>
        buffer[k] == if at <= k < at + i then text[k - at] else old(buffer[k])
    {
      buffer[at + i] := text[i];
    }
  }

  /** Appends a name behind a separator unless it is the first; the caller has checked that it
      fits. */
  method Append(buffer: array<char>, outputLen: nat, name: string, ghost text: string) returns (newLen: nat)
    requires outputLen == |text| && Holds(buffer[..], text)
    requires |Separated(text, outputLen <= 1, name)| < buffer.Length
    modifies buffer
    ensures newLen == |Separated(text, outputLen <= 1, name)|
    ensures Holds(buffer[..], Separated(text, outputLen <= 1, name))
  {
    var at := outputLen;
    if outputLen > 1 {
      buffer[at] := '/';
      at := at + 1;
    }
    CopyText(buffer, at, name);
    newLen := at + |name|;
    buffer[newLen] := '\0';
  }

  /** The buffer holds the text of the stack, the marks its shorter texts. */
  ghost predicate Written(buffer: seq<char>, marks: seq<nat>, outputLen: nat, stack: seq<string>) {
    && outputLen == |Rendered(stack)| && Holds(buffer, Rendered(stack))
    && Marked(marks, stack) && NoneEmpty(stack)
  }

  /** "..": back to the last mark. */
  method LeaveName(buffer: array<char>, marks: array<nat>, markCount: nat, ghost stack: seq<string>)
    returns (newLen: nat)
    requires Written(buffer[..], marks[..], |Rendered(stack)|, stack) && markCount == |stack| > 0
    modifies buffer
    ensures Written(buffer[..], marks[..], newLen, stack[..markCount - 1])
  {
    AfterPop(buffer[..], marks[..], stack);
    MarkedFront(marks[..], stack, markCount - 1);
    newLen := marks[markCount - 1];
    buffer[newLen] := '\0';
  }

  /** A name: marked and appended, if it fits. */
  method AddName(buffer: array<char>, marks: array<nat>, outputLen: nat, markCount: nat, name: string, ghost stack: seq<string>)
    returns (ok: bool, newLen: nat)
    requires Written(buffer[..], marks[..], outputLen, stack) && markCount == |stack| < marks.Length && name != ""
    modifies buffer, marks
    ensures ok == (|Rendered(stack + [name])| < buffer.Length)
    ensures ok ==> Written(buffer[..], marks[..], newLen, stack + [name])
  {
    RootIsShortest(stack);
    RenderedWith(stack, name);
    MarkedMore(marks[..], stack, name);
    if outputLen + (if outputLen > 1 then 1 else 0) + |name| >= buffer.Length {
      return false, outputLen;
    }
    ok := true;
    marks[markCount] := outputLen;
    newLen := Append(buffer, outputLen, name, Rendered(stack));
  }

  /** One name: ".", ".." or a name to append. */
  method EnterName(buffer: array<char>, marks: array<nat>, outputLen: nat, markCount: nat, name: string, ghost stack: seq<string>)
    returns (ok: bool, newLen: nat, newCount: nat)
    requires Written(buffer[..], marks[..], outputLen, stack) && markCount == |stack| < marks.Length && name != ""
    modifies buffer, marks
    ensures ok == !(|Entered(stack, name)| > |stack| && |Rendered(Entered(stack, name))| >= buffer.Length)
    ensures ok ==> newCount == |Entered(stack, name)| && Written(buffer[..], marks[..], newLen, Entered(stack, name))
  {
    ok, newLen, newCount := true, outputLen, markCount;
    if name == "." {
      return;
    }
    if name != ".." {
      ok, newLen := AddName(buffer, marks, outputLen, markCount, name, stack);
      newCount := markCount + 1;
    } else if markCount > 0 {
      newLen := LeaveName(buffer, marks, markCount, stack);
      newCount := markCount - 1;
    }
  }

  /** The walk over the rest of a path, one piece earlier. */
  lemma WalkOne(stack: seq<string>, piece: string, rest: seq<string>, count: nat)
    ensures Walked(stack, WithFirst(NameOf(piece), rest), count) ==
      if piece == "" then Walked(stack, rest, count)
      else
        var next := Entered(stack, piece);
        if |next| > |stack| && |Rendered(next)| >= count then None else Walked(next, rest, count)
  {
    if piece != "" {
      assert ([piece] + rest)[1..] == rest;
    }
  }

  /** One turn of the walk: the next piece, and what it does to buffer and marks. */
  method WalkPiece(combined: string, cursor: nat, buffer: array<char>, marks: array<nat>,
      outputLen: nat, markCount: nat, ghost stack: seq<string>)
    returns (ok: bool, next: nat, newLen: nat, newCount: nat, ghost after: seq<string>)
    requires cursor < |combined| < marks.Length
    requires Written(buffer[..], marks[..], outputLen, stack) && markCount == |stack| <= cursor
    modifies buffer, marks
    ensures cursor < next <= |combined|
    ensures Walked(stack, Components(combined[cursor..]), buffer.Length)
         == if ok then Walked(after, Components(combined[next..]), buffer.Length) else None
    ensures ok ==> newCount == |after| <= next && Written(buffer[..], marks[..], newLen, after)
  {
    var segment;
    segment, next := NextSegment(combined, cursor);
    var name := combined[segment..next];
    WalkOne(stack, name, Components(combined[next..]), buffer.Length);
    ok, newLen, newCount, after := true, outputLen, markCount, stack;
    if name != "" {
      ok, newLen, newCount := EnterName(buffer, marks, outputLen, markCount, name, stack);
      after := Entered(stack, name);
    }
  }

  method WalkPath(combined: string, buffer: array<char>) returns (ok: bool)
    requires buffer.Length >= 2
    modifies buffer
    ensures ok == Walked([], Components(combined), buffer.Length).Some?
    ensures ok ==> Holds(buffer[..], Rendered(Walked([], Components(combined), buffer.Length).value))
  {
    var marks := new nat[|combined| + 1];
    buffer[0], buffer[1] := '/', '\0';
    var outputLen, markCount, cursor := 1, 0, 0;
    ghost var stack: seq<string>, all := [], Walked([], Components(combined), buffer.Length);
    assert combined[0..] == combined;
    while cursor < |combined|
      invariant markCount == |stack| <= cursor <= |combined|
      invariant Written(buffer[..], marks[..], outputLen, stack)
      invariant all == Walked(stack, Components(combined[cursor..]), buffer.Length)
    {
      ok, cursor, outputLen, markCount, stack := WalkPiece(combined, cursor, buffer, marks, outputLen, markCount, stack);
      if !ok {
        return;
      }
    }
    assert Components(combined[cursor..]) == [];
    ok := true;
  }

  /** The output is always the text of a stack of names, and a failed call is one in which
      some intermediate text does not fit. */
  method SimplifyTypedPath(path: string, currentDir: Option<string>, buffer: array<char>) returns (ok: bool)
    requires IsCString(path) && (currentDir.Some? ==> IsCString(currentDir.value))
    modifies buffer
    ensures ok == TypedPath(path, currentDir, buffer.Length).Some?
    ensures ok ==> Holds(buffer[..], TypedPath(path, currentDir, buffer.Length).value)
  {
    if path == "" || buffer.Length < 2 {
      return false;
    }
    if path[0] != '/' && (currentDir.None? || currentDir.value == "" || currentDir.value[0] != '/') {
      return false;
    }
    var combined := if path[0] == '/' then path else currentDir.value + "/" + path;
    ok := WalkPath(combined, buffer);
  }

  // ---------- by components ----------

  lemma OneMoreToken(names: seq<string>, piece: string, rest: seq<string>)
    ensures names + WithFirst(NameOf(piece), rest) == (names + NameOf(piece)) + rest
  {
  }

  method Tokens(s: string) returns (names: seq<string>)
    ensures names == Components(s)
  {
    names := [];
    var cursor := 0;
    ghost var all := Components(s);
    assert s[0..] == s && [] + all == all;
    while cursor < |s|
      invariant cursor <= |s| && names + Components(s[cursor..]) == all
    {
      var segment, next := NextSegment(s, cursor);
      var piece := s[segment..next];
      OneMoreToken(names, piece, Components(s[next..]));
      if segment < next {
        names := names + [piece];
      }
      cursor := next;
    }
    assert names + [] == names;
  }

  /** What comes of a list whose names before index `i` have been dealt with. */
  ghost function ResolvedAt(dirs: seq<string>, i: nat): seq<string>
    requires i <= |dirs|
  {
    Resolved(dirs[..i], dirs[i..])
  }

  function Cut(dirs: seq<string>, i: nat, j: nat): seq<string>
    requires i <= j <= |dirs|
  {
    dirs[..i] + dirs[j..]
  }

  lemma CutParts(dirs: seq<string>, i: nat, j: nat)
    requires i <= j <= |dirs|
    ensures Cut(dirs, i, j)[..i] == dirs[..i] && Cut(dirs, i, j)[i..] == dirs[j..]
  {
  }

  lemma ResolveOne(dirs: seq<string>, i: nat)
    requires i < |dirs|
    ensures ResolvedAt(dirs, i) == Resolved(Entered(dirs[..i], dirs[i]), dirs[i + 1..])
  {
    assert dirs[i..][0] == dirs[i] && dirs[i..][1..] == dirs[i + 1..];
  }

  lemma ResolveDots(dirs: seq<string>, i: nat)
    requires i < |dirs|
    ensures dirs[i] == "." ==> ResolvedAt(dirs, i) == ResolvedAt(Cut(dirs, i, i + 1), i)
    ensures dirs[i] == ".." && i == 0 ==> ResolvedAt(dirs, i) == ResolvedAt(Cut(dirs, i, i + 1), i)
  {
    ResolveOne(dirs, i);
    CutParts(dirs, i, i + 1);
    if i == 0 {
      assert dirs[..0] == [];
    }
  }

  lemma ResolveParent(dirs: seq<string>, i: nat)
    requires 0 < i < |dirs| && dirs[i] == ".."
    ensures ResolvedAt(dirs, i) == ResolvedAt(Cut(dirs, i - 1, i + 1), i - 1)
  {
    ResolveOne(dirs, i);
    CutParts(dirs, i - 1, i + 1);
    assert dirs[..i][..i - 1] == dirs[..i - 1];
  }

  lemma ResolveName(dirs: seq<string>, i: nat)
    requires i < |dirs| && dirs[i] != "." && dirs[i] != ".."
    ensures ResolvedAt(dirs, i) == ResolvedAt(dirs, i + 1)
  {
    ResolveOne(dirs, i);
    assert dirs[..i + 1] == dirs[..i] + [dirs[i]];
  }

  /** Drops "." and takes ".." together with the name before it, in one pass. */
  method RemoveDots(names: seq<string>) returns (dirs: seq<string>)
    ensures dirs == Resolved([], names)
  {
    dirs := names;
    var i := 0;
    assert dirs[..0] == [] && dirs[0..] == dirs;
    while i < |dirs|
      invariant i <= |dirs| && ResolvedAt(dirs, i) == Resolved([], names)
      decreases |dirs| - i
    {
      if dirs[i] != "." && dirs[i] != ".." {
        ResolveName(dirs, i);
        i := i + 1;
      } else if dirs[i] == ".." && i > 0 {
        ResolveParent(dirs, i);
        dirs := Cut(dirs, i - 1, i + 1);
        i := i - 1;
      } else {
        ResolveDots(dirs, i);
        dirs := Cut(dirs, i, i + 1);
      }
    }
    assert dirs[..i] == dirs;
  }

  /** `strcat` onto a text whose length is known. */
  method Concatenate(memory: array<char>, length: nat, more: string, ghost text: string)
    requires length == |text| && Holds(memory[..], text) && length + |more| < memory.Length
    modifies memory
    ensures Holds(memory[..], text + more)
    ensures forall k :: length + |more| < k < memory.Length ==> memory[k] == old(memory[k])
  {
    CopyText(memory, length, more);
    memory[length + |more|] := '\0';
  }

  /** The text while the names from index `i` on are still to come. */
  ghost function Partial(dirs: seq<string>, i: nat): string
    requires i <= |dirs|
  {
    Rendered(dirs[..i]) + if 0 < i < |dirs| then "/" else ""
  }

  lemma PartialAndName(dirs: seq<string>, i: nat)
    requires i < |dirs|
    ensures Partial(dirs, i) + dirs[i] == Rendered(dirs[..i + 1])
    ensures i + 1 < |dirs| ==> Partial(dirs, i) + dirs[i] + "/" == Partial(dirs, i + 1)
    ensures i + 1 == |dirs| ==> Partial(dirs, i) + dirs[i] == Partial(dirs, i + 1)
  {
    assert dirs[..i + 1] == dirs[..i] + [dirs[i]];
    RenderedWith(dirs[..i], dirs[i]);
  }

  /** Some front part, but not the whole, has a text of exactly one character less than the
      buffer holds. */
  ghost predicate FillsWithFront(dirs: seq<string>, bufSize: int) {
    exists k :: 0 < k < |dirs| && |Rendered(dirs[..k])| == bufSize - 1
  }

  lemma {:induction false} FrontsGrow(dirs: seq<string>, k: nat, j: nat)
    requires NoneEmpty(dirs) && k < j <= |dirs|
    ensures |Rendered(dirs[..k])| < |Rendered(dirs[..j])|
    decreases j
  {
    assert dirs[..j] == dirs[..j - 1] + [dirs[j - 1]];
    RenderedWith(dirs[..j - 1], dirs[j - 1]);
    if k < j - 1 {
      FrontsGrow(dirs, k, j - 1);
    }
  }

  /** Where the writing stops when name `i` does not fit. */
  lemma StoppedAt(dirs: seq<string>, i: nat, bufSize: int)
    requires NoneEmpty(dirs) && i < |dirs| && |Rendered(dirs[..i])| < bufSize <= |Rendered(dirs[..i + 1])|
    ensures |Rendered(dirs)| >= bufSize
    ensures |Partial(dirs, i)| <= bufSize
    ensures bufSize > 1 ==> (|Partial(dirs, i)| == bufSize <==> FillsWithFront(dirs, bufSize))
  {
    assert dirs[..|dirs|] == dirs;
    if i + 1 < |dirs| {
      FrontsGrow(dirs, i + 1, |dirs|);
    }
    if k :| 0 < k < |dirs| && |Rendered(dirs[..k])| == bufSize - 1 {
      if k < i {
        FrontsGrow(dirs, k, i);
      } else if i + 1 < k {
        FrontsGrow(dirs, i + 1, k);
      }
    }
  }

  /** When everything fits no front part fills the buffer. */
  lemma NeverStopped(dirs: seq<string>, bufSize: int)
    requires NoneEmpty(dirs) && |Rendered(dirs)| < bufSize
    ensures !FillsWithFront(dirs, bufSize)
  {
    assert dirs[..|dirs|] == dirs;
    forall k | 0 < k < |dirs| ensures |Rendered(dirs[..k])| != bufSize - 1 {
      FrontsGrow(dirs, k, |dirs|);
    }
  }

  /** Writes the names out; `reach` is the last index written. The buffer is the first
      `bufSize` characters of the memory. */
  method WriteNames(dirs: seq<string>, memory: array<char>, bufSize: int) returns (ok: bool, ghost reach: int)
    requires 1 < bufSize < memory.Length && NoneEmpty(dirs)
    modifies memory
    ensures ok == (|Rendered(dirs)| < bufSize)
    ensures ok ==> Holds(memory[..], Rendered(dirs))
    ensures 0 <= reach <= bufSize && memory[reach] == '\0'
    ensures reach == bufSize <==> FillsWithFront(dirs, bufSize)
    ensures forall k :: reach < k < memory.Length ==> memory[k] == old(memory[k])
  {
    memory[0], memory[1] := '/', '\0';
    var totalLen, i := 1, 0;
    reach := 1;
    while i < |dirs|
      invariant i <= |dirs| && totalLen == reach == |Partial(dirs, i)| && Holds(memory[..], Partial(dirs, i))
      invariant |Rendered(dirs[..i])| < bufSize
      invariant forall k :: reach < k < memory.Length ==> memory[k] == old(memory[k])
    {
      PartialAndName(dirs, i);
      if totalLen + |dirs[i]| >= bufSize {
        StoppedAt(dirs, i, bufSize);
        return false, reach;
      }
      Concatenate(memory, totalLen, dirs[i], Partial(dirs, i));
      totalLen := totalLen + |dirs[i]|;
      if i != |dirs| - 1 {
        Concatenate(memory, totalLen, "/", Partial(dirs, i) + dirs[i]);
        totalLen := totalLen + 1;
      }
      reach := totalLen;
      i := i + 1;
    }
    assert dirs[..i] == dirs;
    NeverStopped(dirs, bufSize);
    ok := true;
  }

  lemma NamesAreNotEmpty(all: string)
    ensures NoneEmpty(Resolved([], Components(all)))
  {
    ComponentsAreSlashFree(all);
    ResolvedIsPlain([], Components(all));
    var dirs := Resolved([], Components(all));
    assert forall i :: 0 <= i < |dirs| ==> dirs[i] in dirs;
  }

  /** On success the memory holds the text. The last index written lies behind the buffer
      exactly when a front part fills it, and then the call fails. */
  method SimplifyExternalPath(path: string, currentDir: string, memory: array<char>, bufSize: int)
    returns (ok: bool, ghost reach: int)
    requires IsCString(path) && IsCString(currentDir) && bufSize < memory.Length
    modifies memory
    ensures ok == ExternalPath(path, currentDir, bufSize).Some?
    ensures ok ==> Holds(memory[..], ExternalPath(path, currentDir, bufSize).value)
    ensures if bufSize <= 1 then reach == -1 else 0 <= reach <= bufSize && memory[reach] == '\0'
    ensures bufSize > 1 ==>
      (reach == bufSize <==> FillsWithFront(Resolved([], Components(Combined(path, currentDir))), bufSize))
    ensures forall k :: reach < k < memory.Length ==> memory[k] == old(memory[k])
  {
    if bufSize <= 1 {
      return false, -1;
    }
    var names := Tokens(Combined(path, currentDir));
    var dirs := RemoveDots(names);
    NamesAreNotEmpty(Combined(path, currentDir));
    ok, reach := WriteNames(dirs, memory, bufSize);
  }
}
