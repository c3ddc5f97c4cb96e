/** What simplifying a path means, name by name. Together these laws decide the result for
    every path and every current directory. */
module PathLaws {
  import opened Operations
  import opened PathSimplifier
  import RemotePaths

  /** The text is what the path simplifies to, in every buffer that holds it. */
  ghost predicate Simplifies(path: string, currentDir: string, text: string) {
    forall count: int :: ExternalPath(path, currentDir, count) == if 1 < count && |text| < count then Some(text) else None
  }

  /** A path without its last name, down to the root. */
  function Parent(text: string): string {
    if |text| <= 1 then "/"
    else
      var n := |text| - 1;
      if text[n] == '/' then text[..n] else Parent(text[..n])
  }

  function Child(text: string, name: string): string {
    if text == "/" then "/" + name else text + "/" + name
  }

  /** Going on from a simplified path by one name. */
  function Onward(text: string, name: string): string {
    if name == "." then text else if name == ".." then Parent(text) else Child(text, name)
  }

  predicate IsName(c: string) {
    c != "" && '/' !in c
  }

  function Text(path: string, currentDir: string): string {
    Rendered(Resolved([], Components(Combined(path, currentDir))))
  }

  lemma TextSimplifies(path: string, currentDir: string)
    ensures Simplifies(path, currentDir, Text(path, currentDir))
  {
  }

  lemma OnlyText(path: string, currentDir: string, text: string)
    requires Simplifies(path, currentDir, text)
    ensures text == Text(path, currentDir)
  {
    var t := Text(path, currentDir);
    var count := |text| + |t| + 2;
    assert ExternalPath(path, currentDir, count) == Some(t);
  }

  // ---------- one more name ----------

  lemma {:induction false} ResolvedOfLast(stack: seq<string>, components: seq<string>, c: string)
    ensures Resolved(stack, components + [c]) == Entered(Resolved(stack, components), c)
    decreases |components|
  {
    if components == [] {
      assert components + [c] == [c];
      assert [c][1..] == [];
    } else {
      assert (components + [c])[1..] == components[1..] + [c];
      ResolvedOfLast(Entered(stack, components[0]), components[1..], c);
    }
  }

  lemma RenderedIsRoot(stack: seq<string>)
    requires AllPlain(stack)
    ensures Rendered(stack) == "/" <==> stack == []
  {
    if stack != [] {
      RenderedLonger(stack);
    }
  }

  lemma RenderedLonger(stack: seq<string>)
    requires stack != [] && AllPlain(stack)
    ensures |Rendered(stack)| > 1
  {
    assert stack[|stack| - 1] in stack;
  }

  lemma {:induction false} ParentOfName(text: string, c: string)
    requires '/' !in c && text != "" && text[0] == '/'
    ensures Parent(text + c) == Parent(text)
    decreases |c|
  {
    if c == "" {
      assert text + c == text;
    } else {
      var n := |c| - 1;
      assert c[n] in c;
      assert (text + c)[..|text + c| - 1] == text + c[..n];
      ParentOfName(text, c[..n]);
    }
  }

  lemma ParentOfRendered(stack: seq<string>)
    requires AllPlain(stack)
    ensures Parent(Rendered(stack)) == Rendered(if stack == [] then [] else stack[..|stack| - 1])
  {
    if stack != [] {
      var n := |stack| - 1;
      var front, c := Rendered(stack[..n]), stack[n];
      assert c in stack;
      if n > 0 {
        assert Rendered(stack) == (front + "/") + c;
        ParentOfName(front + "/", c);
        assert (front + "/")[..|front|] == front;
      } else {
        assert Rendered(stack) == "/" + c;
        ParentOfName("/", c);
      }
    }
  }

  lemma ChildOfRendered(stack: seq<string>, c: string)
    requires AllPlain(stack)
    ensures Rendered(stack + [c]) == Child(Rendered(stack), c)
  {
    RenderedIsRoot(stack);
    assert (stack + [c])[..|stack|] == stack;
  }

  lemma EnteredRenders(stack: seq<string>, c: string)
    requires AllPlain(stack) && IsName(c)
    ensures Rendered(Entered(stack, c)) == Onward(Rendered(stack), c)
  {
    if c == ".." {
      ParentOfRendered(stack);
    } else if c != "." {
      ChildOfRendered(stack, c);
    }
  }

  /** A text with one more name behind a slash. */
  lemma OneMoreName(all: string, c: string)
    requires IsName(c)
    ensures Rendered(Resolved([], Components(all + "/" + c))) == Onward(Rendered(Resolved([], Components(all))), c)
  {
    ComponentsOfLast(all, c);
    ResolvedOfLast([], Components(all), c);
    ComponentsAreSlashFree(all);
    ResolvedIsPlain([], Components(all));
    EnteredRenders(Resolved([], Components(all)), c);
  }

  lemma {:induction false} SlashAtEnd(s: string)
    ensures Components(s + "/") == Components(s)
    decreases |s|
  {
    var t := s + "/";
    if s == "" {
      assert t[1..] == "";
    } else if s[0] == '/' {
      assert t[1..] == s[1..] + "/";
      SlashAtEnd(s[1..]);
    } else {
      var n := RemotePaths.IndexOf(s, '/');
      var name, rest := s[..n], s[n..];
      assert s == name + rest && t == name + (rest + "/");
      NameBeforeSlash(name, rest);
      NameBeforeSlash(name, rest + "/");
      SlashAtEnd(rest);
    }
  }

  // ---------- the laws ----------

  /** Every path simplifies to one text. */
  lemma SimplifiesToOne(path: string, currentDir: string) returns (text: string)
    ensures Simplifies(path, currentDir, text)
    ensures forall other :: Simplifies(path, currentDir, other) ==> other == text
  {
    text := Text(path, currentDir);
    TextSimplifies(path, currentDir);
    forall other | Simplifies(path, currentDir, other) ensures other == text {
      OnlyText(path, currentDir, other);
    }
  }

  /** A path that starts with a slash does not depend on the current directory; any other is
      read from there. */
  lemma StartsAtCurrentDirectory(path: string, currentDir: string, elsewhere: string, text: string)
    requires Simplifies(path, currentDir, text)
    ensures path != "" && path[0] == '/' ==> Simplifies(path, elsewhere, text)
    ensures (path == "" || path[0] != '/') && currentDir != "" && currentDir[0] == '/' ==>
      Simplifies(currentDir + "/" + path, elsewhere, text)
  {
    OnlyText(path, currentDir, text);
    if path != "" && path[0] == '/' {
      TextSimplifies(path, elsewhere);
    } else if currentDir != "" && currentDir[0] == '/' {
      TextSimplifies(currentDir + "/" + path, elsewhere);
    }
  }

  /** A name behind a slash leads nowhere, to the parent, or to the child of that name. */
  lemma GoesOnByNames(path: string, currentDir: string, text: string, name: string)
    requires path != "" && Simplifies(path, currentDir, text) && IsName(name)
    ensures Simplifies(path + "/" + name, currentDir, Onward(text, name))
  {
    OnlyText(path, currentDir, text);
    TextGoesOn(path, currentDir, name);
    TextSimplifies(path + "/" + name, currentDir);
  }

  lemma CombinedLonger(path: string, currentDir: string, tail: string)
    requires path != ""
    ensures Combined(path + tail, currentDir) == Combined(path, currentDir) + tail
  {
  }

  lemma CombinedWithName(path: string, currentDir: string, name: string)
    requires path != ""
    ensures Combined(path + "/" + name, currentDir) == Combined(path, currentDir) + "/" + name
  {
    CombinedLonger(path, currentDir, "/");
    CombinedLonger(path + "/", currentDir, name);
  }

  lemma TextGoesOn(path: string, currentDir: string, name: string)
    requires path != "" && IsName(name)
    ensures Text(path + "/" + name, currentDir) == Onward(Text(path, currentDir), name)
  {
    CombinedWithName(path, currentDir, name);
    OneMoreName(Combined(path, currentDir), name);
  }

  /** A slash at the end changes nothing. */
  lemma SlashChangesNothing(path: string, currentDir: string, text: string)
    requires path != "" && Simplifies(path, currentDir, text)
    ensures Simplifies(path + "/", currentDir, text)
  {
    OnlyText(path, currentDir, text);
    CombinedLonger(path, currentDir, "/");
    SlashAtEnd(Combined(path, currentDir));
    TextSimplifies(path + "/", currentDir);
  }

  /** From the root one goes on in the same way. */
  lemma RootSimplifies(currentDir: string, name: string)
    requires IsName(name)
    ensures Simplifies("/", currentDir, "/") && Simplifies("/" + name, currentDir, Onward("/", name))
  {
    assert "/" == "" + "/" && "/" + name == "" + "/" + name;
    SlashAtEnd("");
    OneMoreName("", name);
    TextSimplifies("/", currentDir);
    TextSimplifies("/" + name, currentDir);
  }

  /** A child's parent is where it was entered, and the root is its own. */
  lemma ParentOfChild(path: string, currentDir: string, text: string, name: string)
    requires Simplifies(path, currentDir, text) && IsPlain(name)
    ensures Parent(Child(text, name)) == text && Parent("/") == "/"
  {
    OnlyText(path, currentDir, text);
    var stack := Resolved([], Components(Combined(path, currentDir)));
    ComponentsAreSlashFree(Combined(path, currentDir));
    ResolvedIsPlain([], Components(Combined(path, currentDir)));
    ChildOfRendered(stack, name);
    ParentOfRendered(stack + [name]);
    assert (stack + [name])[..|stack|] == stack;
  }

  /** No slash is doubled, and none is at the end but that of the root. */
  lemma NoSlashTwice(path: string, currentDir: string, text: string)
    requires Simplifies(path, currentDir, text)
    ensures text != "" && text[0] == '/' && (text[|text| - 1] == '/' ==> text == "/")
    ensures forall i :: 0 < i < |text| ==> !(text[i - 1] == '/' && text[i] == '/')
  {
    OnlyText(path, currentDir, text);
    ComponentsAreSlashFree(Combined(path, currentDir));
    ResolvedIsPlain([], Components(Combined(path, currentDir)));
    RenderedSlashes(Resolved([], Components(Combined(path, currentDir))));
  }

  lemma {:induction false} RenderedSlashes(stack: seq<string>)
    requires AllPlain(stack)
    ensures var t := Rendered(stack);
      && (t[|t| - 1] == '/' <==> stack == [])
      && forall i :: 0 < i < |t| ==> !(t[i - 1] == '/' && t[i] == '/')
    decreases |stack|
  {
    if stack != [] {
      var n := |stack| - 1;
      var c := stack[n];
      assert c in stack;
      RenderedSlashes(stack[..n]);
      NameHasNoSlash(c);
    }
  }

  lemma NameHasNoSlash(c: string)
    requires '/' !in c
    ensures forall i :: 0 <= i < |c| ==> c[i] != '/'
  {
    forall i | 0 <= i < |c| ensures c[i] != '/' {
      assert c[i] in c;
    }
  }
}
