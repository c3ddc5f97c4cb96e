/** Two ways to simplify a remote path: in place, with a stack of marks into the output, and
    by a list of components. */
module PathSimplifier {
  import opened Operations
  import opened RemotePaths

  // ---------- components ----------

  /** The non-empty pieces between slashes. */
  function Components(s: string): seq<string>
    decreases |s|
  {
    if s == "" then []
    else if s[0] == '/' then Components(s[1..])
    else
      var n := IndexOf(s, '/');
      [s[..n]] + Components(s[n..])
  }

  /** A component that stays: not empty, no slash, and neither "." nor "..". */
  predicate IsPlain(c: string) {
    c != "" && '/' !in c && c != "." && c != ".."
  }

  function Entered(stack: seq<string>, c: string): seq<string> {
    if c == "." then stack
    else if c == ".." then (if stack == [] then [] else stack[..|stack| - 1])
    else stack + [c]
  }

  function Resolved(stack: seq<string>, components: seq<string>): seq<string>
    decreases |components|
  {
    if components == [] then stack else Resolved(Entered(stack, components[0]), components[1..])
  }

  function Rendered(stack: seq<string>): (text: string)
    ensures text != "" && text[0] == '/'
  {
    if stack == [] then "/"
    else
      var n := |stack| - 1;
      Rendered(stack[..n]) + (if n > 0 then "/" else "") + stack[n]
  }

  ghost predicate AllPlain(stack: seq<string>) {
    forall c :: c in stack ==> IsPlain(c)
  }

  predicate IsCString(s: string) {
    '\0' !in s
  }

  /** The path to simplify; a relative one starts at the current directory. */
  function Combined(path: string, currentDir: string): string {
    if path != "" && path[0] == '/' then path else currentDir + "/" + path
  }

  // ---------- what the two ways compute ----------

  /** The in-place way gives up as soon as an intermediate text does not fit. */
  function Walked(stack: seq<string>, components: seq<string>, count: nat): Option<seq<string>>
    decreases |components|
  {
    if components == [] then Some(stack)
    else
      var next := Entered(stack, components[0]);
      if |next| > |stack| && |Rendered(next)| >= count then None
      else Walked(next, components[1..], count)
  }

  function TypedPath(path: string, currentDir: Option<string>, count: nat): Option<string> {
    if path == "" || count < 2 then None
    else if path[0] != '/' && (currentDir.None? || currentDir.value == "" || currentDir.value[0] != '/') then None
    else
      var all := Combined(path, if currentDir.Some? then currentDir.value else "");
      match Walked([], Components(all), count)
      case None => None
      case Some(stack) => Some(Rendered(stack))
  }

  function ExternalPath(path: string, currentDir: string, count: int): Option<string> {
    if count <= 1 then None
    else
      var text := Rendered(Resolved([], Components(Combined(path, currentDir))));
      if |text| < count then Some(text) else None
  }

  // ---------- components and rendering are inverse ----------

  lemma {:induction false} ComponentsAreSlashFree(s: string)
    ensures forall c :: c in Components(s) ==> c != "" && '/' !in c
    decreases |s|
  {
    if s != "" {
      if s[0] == '/' {
        ComponentsAreSlashFree(s[1..]);
      } else {
        ComponentsAreSlashFree(s[IndexOf(s, '/')..]);
      }
    }
  }

  lemma EnteredStaysPlain(stack: seq<string>, c: string)
    requires AllPlain(stack) && c != "" && '/' !in c
    ensures AllPlain(Entered(stack, c))
  {
  }

  lemma {:induction false} ResolvedIsPlain(stack: seq<string>, components: seq<string>)
    requires AllPlain(stack) && forall c :: c in components ==> c != "" && '/' !in c
    ensures AllPlain(Resolved(stack, components))
    decreases |components|
  {
    if components != [] {
      assert components[0] in components;
      EnteredStaysPlain(stack, components[0]);
      assert forall c :: c in components[1..] ==> c in components;
      ResolvedIsPlain(Entered(stack, components[0]), components[1..]);
    }
  }

  /** A component at the end of a text, behind a slash. */
  lemma {:induction false} ComponentsOfLast(s: string, c: string)
    requires c != "" && '/' !in c
    ensures Components(s + "/" + c) == Components(s) + [c]
    decreases |s|
  {
    var t := s + "/" + c;
    if s == "" {
      ComponentAlone(c);
      assert t[1..] == c;
    } else if s[0] == '/' {
      assert t[1..] == s[1..] + "/" + c;
      ComponentsOfLast(s[1..], c);
    } else {
      var n := IndexOf(s, '/');
      var name, rest := s[..n], s[n..];
      assert s == name + rest && t == name + (rest + "/" + c);
      NameBeforeSlash(name, rest);
      NameBeforeSlash(name, rest + "/" + c);
      ComponentsOfLast(rest, c);
      Regroup(name, Components(rest), c);
    }
  }

  lemma NameBeforeSlash(name: string, tail: string)
    requires name != "" && '/' !in name && (tail != "" ==> tail[0] == '/')
    ensures Components(name + tail) == [name] + Components(tail)
  {
    var all := name + tail;
    IndexAt(name, "", '/');
    if tail == "" {
      assert all == name;
    } else {
      SameFirst(name, tail);
    }
    assert all[0] == name[0] && name[0] in name;
    assert all[..|name|] == name && all[|name|..] == tail;
  }

  lemma Regroup(first: string, rest: seq<string>, last: string)
    ensures [first] + (rest + [last]) == ([first] + rest) + [last]
  {
  }

  lemma ComponentAlone(c: string)
    requires c != "" && '/' !in c
    ensures Components(c) == [c]
  {
    var n := IndexOf(c, '/');
    IndexAt(c, "", '/');
    assert c[..n] == c && c[n..] == "";
  }

  lemma {:induction false} SameFirst(s: string, t: string)
    requires t != "" && t[0] == '/'
    ensures IndexOf(s + t, '/') == IndexOf(s, '/')
    decreases |s|
  {
    if s == "" {
      assert s + t == t;
    } else if s[0] != '/' {
      assert (s + t)[1..] == s[1..] + t;
      SameFirst(s[1..], t);
    }
  }

  lemma {:induction false} RenderedComponents(stack: seq<string>)
    requires AllPlain(stack)
    ensures Components(Rendered(stack)) == stack
  {
    if stack != [] {
      var n := |stack| - 1;
      var c := stack[n];
      assert c in stack;
      RenderedComponents(stack[..n]);
      if n == 0 {
        assert Rendered(stack) == "" + "/" + c;
        ComponentsOfLast("", c);
      } else {
        ComponentsOfLast(Rendered(stack[..n]), c);
      }
      assert stack[..n] + [c] == stack;
    } else {
      assert Components("/"[1..]) == [];
    }
  }

  lemma {:induction false} PlainResolvesToItself(stack: seq<string>, more: seq<string>, count: nat)
    requires AllPlain(more)
    ensures Resolved(stack, more) == stack + more
    ensures |Rendered(stack + more)| < count ==> Walked(stack, more, count) == Some(stack + more)
    decreases |more|
  {
    if more == [] {
      assert stack + more == stack;
    } else {
      var next := stack + [more[0]];
      assert more[0] in more;
      assert Entered(stack, more[0]) == next;
      assert next + more[1..] == stack + more;
      PlainResolvesToItself(next, more[1..], count);
      LongerWithMore(next, more[1..]);
    }
  }

  lemma {:induction false} LongerWithMore(stack: seq<string>, more: seq<string>)
    ensures |Rendered(stack)| <= |Rendered(stack + more)|
    decreases |more|
  {
    if more == [] {
      assert stack + more == stack;
    } else {
      var n := |more| - 1;
      LongerWithMore(stack, more[..n]);
      assert (stack + more)[..|stack| + n] == stack + more[..n];
    }
  }

  // ---------- the theorems ----------

  lemma {:induction false} WalkedIsResolved(stack: seq<string>, components: seq<string>, count: nat)
    requires |Rendered(stack)| < count
    ensures Walked(stack, components, count).Some? ==>
      Walked(stack, components, count).value == Resolved(stack, components)
      && |Rendered(Resolved(stack, components))| < count
    decreases |components|
  {
    if components != [] {
      var next := Entered(stack, components[0]);
      EnteredShorter(stack, components[0]);
      if |Rendered(next)| < count {
        WalkedIsResolved(next, components[1..], count);
      }
    }
  }

  /** Whenever the in-place way succeeds, the way by components succeeds with the same text. */
  lemma TypedAgreesWithExternal(path: string, currentDir: string, count: nat)
    requires TypedPath(path, Some(currentDir), count).Some?
    ensures ExternalPath(path, currentDir, count) == TypedPath(path, Some(currentDir), count)
  {
    WalkedIsResolved([], Components(Combined(path, currentDir)), count);
  }

  /** The converse needs room for the intermediate texts: a long name that is left again
      makes the in-place way give up. */
  lemma ExternalMaySucceedAlone(a: string, c: string, count: nat)
    requires IsPlain(a) && IsPlain(c) && |c| + 1 < count <= |a| + 1
    ensures var path := "" + "/" + a + "/" + ".." + "/" + c;
      ExternalPath(path, "/", count) == Some("/" + c) && TypedPath(path, Some("/"), count) == None
  {
    var one := "" + "/" + a;
    var two := one + "/" + "..";
    var path := two + "/" + c;
    ComponentsOfLast("", a);
    ComponentsOfLast(one, "..");
    ComponentsOfLast(two, c);
    LeaveAndEnter(a, c, count);
    assert Components("") == [];
    assert ((([] + [a]) + [".."]) + [c]) == [a, "..", c];
  }

  lemma LeaveAndEnter(a: string, c: string, count: nat)
    requires IsPlain(a) && IsPlain(c) && |c| + 1 < count <= |a| + 1
    ensures Rendered(Resolved([], [a, "..", c])) == "/" + c
    ensures Walked([], [a, "..", c], count) == None
  {
    var all := [a, "..", c];
    RenderedOne(a);
    RenderedOne(c);
    assert all[1..] == ["..", c] && ["..", c][1..] == [c] && [c][1..] == [];
    assert Entered([], a) == [a] && Entered([a], "..") == [] && Entered([], c) == [c];
    assert Resolved([], all) == Resolved([a], ["..", c]) == Resolved([], [c]) == Resolved([c], []);
  }

  lemma RenderedOne(c: string)
    ensures Rendered([c]) == "/" + c
  {
    assert [c][..0] == [];
    assert "/" + "" + c == "/" + c;
  }

  /** Exactly when the in-place way succeeds: what every front part of the path simplifies to
      has to fit. */
  lemma {:induction false} WalksWhenFrontsFit(stack: seq<string>, components: seq<string>, count: nat)
    requires |Rendered(stack)| < count
    ensures Walked(stack, components, count).Some? <==>
      forall k :: 0 <= k <= |components| ==> |Rendered(Resolved(stack, components[..k]))| < count
    decreases |components|
  {
    if components == [] {
      assert components[..0] == [];
    } else {
      var next := Entered(stack, components[0]);
      EnteredShorter(stack, components[0]);
      assert components[..0] == [];
      forall k | 1 <= k <= |components|
        ensures Resolved(stack, components[..k]) == Resolved(next, components[1..][..k - 1])
      {
        FrontUnfolds(stack, components, k);
      }
      if |Rendered(next)| < count {
        WalksWhenFrontsFit(next, components[1..], count);
        FrontsShift(stack, components, count);
      } else {
        assert components[1..][..0] == [];
        assert Resolved(stack, components[..1]) == next;
      }
    }
  }

  lemma FrontUnfolds(stack: seq<string>, components: seq<string>, k: nat)
    requires 1 <= k <= |components|
    ensures Resolved(stack, components[..k]) == Resolved(Entered(stack, components[0]), components[1..][..k - 1])
  {
    assert components[..k][0] == components[0] && components[..k][1..] == components[1..][..k - 1];
  }

  lemma FrontsShift(stack: seq<string>, components: seq<string>, count: nat)
    requires components != [] && |Rendered(stack)| < count
    ensures (forall k :: 0 <= k <= |components| ==> |Rendered(Resolved(stack, components[..k]))| < count) <==>
      forall k :: 0 <= k <= |components[1..]| ==>
        |Rendered(Resolved(Entered(stack, components[0]), components[1..][..k]))| < count
  {
    var next := Entered(stack, components[0]);
    assert components[..0] == [];
    forall k | 1 <= k <= |components|
      ensures Resolved(stack, components[..k]) == Resolved(next, components[1..][..k - 1])
    {
      FrontUnfolds(stack, components, k);
    }
    forall k | 0 <= k <= |components[1..]|
      ensures Resolved(stack, components[..k + 1]) == Resolved(next, components[1..][..k])
    {
      FrontUnfolds(stack, components, k + 1);
    }
  }

  lemma EnteredShorter(stack: seq<string>, c: string)
    ensures |Entered(stack, c)| <= |stack| ==> |Rendered(Entered(stack, c))| <= |Rendered(stack)|
  {
    if stack != [] {
      var n := |stack| - 1;
      LongerWithMore(stack[..n], [stack[n]]);
      assert stack[..n] + [stack[n]] == stack;
    }
  }

  /** A buffer longer than the path it is given is always large enough. */
  lemma TypedSucceedsWithRoom(path: string, currentDir: Option<string>, count: nat)
    requires path != "" && (path[0] == '/' || (currentDir.Some? && currentDir.value != "" && currentDir.value[0] == '/'))
    requires count > |Combined(path, if currentDir.Some? then currentDir.value else "")|
    requires count >= 2
    ensures TypedPath(path, currentDir, count).Some?
  {
    var all := Combined(path, if currentDir.Some? then currentDir.value else "");
    assert all[0] == '/';
    ComponentsFit(all[1..]);
    assert Components(all) == Components(all[1..]);
    WalkHasRoom([], Components(all), count);
  }

  /** The room that components take, one slash each. */
  ghost function Room(components: seq<string>): nat {
    if components == [] then 0 else |components[0]| + 1 + Room(components[1..])
  }

  lemma {:induction false} ComponentsFit(s: string)
    ensures Room(Components(s)) <= |s| + 1
    ensures s == "" || s[0] == '/' ==> Room(Components(s)) <= |s|
    decreases |s|
  {
    if s != "" {
      if s[0] == '/' {
        ComponentsFit(s[1..]);
      } else {
        var n := IndexOf(s, '/');
        ComponentsFit(s[n..]);
        assert ([s[..n]] + Components(s[n..]))[1..] == Components(s[n..]);
      }
    }
  }

  ghost function Used(stack: seq<string>): nat {
    if stack == [] then 0 else |Rendered(stack)|
  }

  lemma EnteredUses(stack: seq<string>, c: string)
    ensures var next := Entered(stack, c);
      && Used(next) <= Used(stack) + |c| + 1
      && (|next| > |stack| ==> |Rendered(next)| == Used(next))
  {
    EnteredShorter(stack, c);
    PushUses(stack, c);
  }

  lemma PushUses(stack: seq<string>, c: string)
    ensures Used(stack + [c]) == |Rendered(stack + [c])| == Used(stack) + |c| + 1
  {
    assert (stack + [c])[..|stack|] == stack;
  }

  lemma {:induction false} WalkHasRoom(stack: seq<string>, components: seq<string>, count: nat)
    requires Used(stack) + Room(components) < count
    ensures Walked(stack, components, count).Some?
    decreases |components|
  {
    if components != [] {
      EnteredUses(stack, components[0]);
      WalkHasRoom(Entered(stack, components[0]), components[1..], count);
    }
  }

  /** The result of a simplification is a normal form: simplifying it again, from anywhere,
      changes nothing. */
  lemma TypedIsIdempotent(path: string, currentDir: Option<string>, count: nat, elsewhere: Option<string>)
    requires TypedPath(path, currentDir, count).Some?
    ensures var t := TypedPath(path, currentDir, count).value;
      && TypedPath(t, elsewhere, count) == Some(t)
      && t == Rendered(Components(t)) && AllPlain(Components(t)) && |t| < count
  {
    var all := Combined(path, if currentDir.Some? then currentDir.value else "");
    var stack := Walked([], Components(all), count).value;
    WalkedIsResolved([], Components(all), count);
    ComponentsAreSlashFree(all);
    ResolvedIsPlain([], Components(all));
    RenderedComponents(stack);
    PlainResolvesToItself([], stack, count);
    assert [] + stack == stack;
  }

  lemma ExternalIsIdempotent(path: string, currentDir: string, count: int, elsewhere: string)
    requires ExternalPath(path, currentDir, count).Some?
    ensures var t := ExternalPath(path, currentDir, count).value;
      ExternalPath(t, elsewhere, count) == Some(t)
  {
    var all := Combined(path, currentDir);
    var stack := Resolved([], Components(all));
    ComponentsAreSlashFree(all);
    ResolvedIsPlain([], Components(all));
    PlainTextIsFixed(stack, elsewhere);
  }

  lemma PlainTextIsFixed(stack: seq<string>, elsewhere: string)
    requires AllPlain(stack)
    ensures Rendered(Resolved([], Components(Combined(Rendered(stack), elsewhere)))) == Rendered(stack)
  {
    RenderedComponents(stack);
    PlainResolvesToItself([], stack, 0);
    assert [] + stack == stack;
  }
}
