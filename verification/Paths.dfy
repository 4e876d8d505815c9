/**
 * Clean repository paths.
 *
 * The program keeps paths as cleaned strings.  The model keeps them as sequences of
 * components, the root "." being the empty sequence, so that "at or below" is the prefix
 * order.  PathText proves that the string operations the program uses on cleaned paths are
 * exactly these sequence operations.
 */
module Paths {
  type Path = seq<string>

  const ROOT: Path := []

  /** `path == root || strings.HasPrefix(path, root+"/")`. */
  predicate Under(path: Path, root: Path) {
    root <= path
  }

  predicate StrictlyUnder(path: Path, root: Path) {
    root < path
  }

  /** Neither tree contains the other. */
  predicate Apart(a: Path, b: Path) {
    !(a <= b) && !(b <= a)
  }

  function Parent(path: Path): Path
    requires path != ROOT
  {
    path[..|path| - 1]
  }

  function BaseName(path: Path): string
    requires path != ROOT
  {
    path[|path| - 1]
  }

  /** `newRoot + strings.TrimPrefix(path, oldRoot)`. */
  function Rebase(path: Path, oldRoot: Path, newRoot: Path): Path
    requires Under(path, oldRoot)
  {
    newRoot + path[|oldRoot|..]
  }

  lemma RebaseBack(path: Path, oldRoot: Path, newRoot: Path)
    requires Under(path, oldRoot)
    ensures Under(Rebase(path, oldRoot, newRoot), newRoot)
    ensures Rebase(Rebase(path, oldRoot, newRoot), newRoot, oldRoot) == path
  {
  }

  lemma UnderSplits(path: Path, root: Path)
    requires Under(path, root)
    ensures path == root || StrictlyUnder(path, root)
  {
  }

  lemma ParentUnder(path: Path, root: Path)
    requires path != ROOT
    ensures Under(Parent(path), root) ==> Under(path, root)
    ensures StrictlyUnder(path, root) ==> Under(Parent(path), root)
  {
  }

  /** Two trees that share a path are nested. */
  lemma SharedPathNests(path: Path, a: Path, b: Path)
    requires Under(path, a) && Under(path, b)
    ensures a <= b || b <= a
  {
  }

  /** The component just below `root` on the way to `path`. */
  lemma FirstStep(path: Path, root: Path)
    requires StrictlyUnder(path, root)
    ensures Under(path, root + [path[|root|]])
  {
  }
}

/** String-level path operations agree with the component-level ones on cleaned paths. */
module PathText {
  import opened Paths

  /** What CleanPath leaves in a path: no empty, dot or slash-carrying components. */
  predicate CleanName(name: string) {
    name != "" && name != "." && name != ".." && '/' !in name
  }

  predicate Clean(path: Path) {
    forall i :: 0 <= i < |path| ==> CleanName(path[i])
  }

  function Joined(path: Path): string
    requires path != ROOT
  {
    if |path| == 1 then path[0] else path[0] + "/" + Joined(path[1..])
  }

  function Render(path: Path): string {
    if path == ROOT then "." else Joined(path)
  }

  /** strings.HasPrefix */
  predicate HasPrefix(s: string, prefix: string) {
    prefix <= s
  }

  /** strings.TrimPrefix */
  function TrimPrefix(s: string, prefix: string): string {
    if prefix <= s then s[|prefix|..] else s
  }

  /** samePathOrDescendant of the FUSE adapter, on strings. */
  predicate SamePathOrDescendant(path: string, root: string) {
    path == root || HasPrefix(path, root + "/")
  }

  /** strings.Cut(s, "/"): the part before the first slash. */
  function BeforeSlash(s: string): (r: string)
    ensures '/' !in r && r <= s
    ensures r == s || (|r| < |s| && s[|r|] == '/')
  {
    if s == "" || s[0] == '/' then "" else [s[0]] + BeforeSlash(s[1..])
  }

  /** filepath.Dir of a cleaned relative path: everything before the last slash, or ".". */
  function Dir(s: string): string {
    if '/' !in s then "."
    else if s[|s| - 1] == '/' then s[..|s| - 1]
    else Dir(s[..|s| - 1])
  }

  lemma {:induction false} JoinedConcat(a: Path, b: Path)
    requires a != ROOT && b != ROOT
    ensures Joined(a + b) == Joined(a) + "/" + Joined(b)
  {
    if |a| == 1 {
      assert (a + b)[1..] == b;
    } else {
      JoinedConcat(a[1..], b);
      assert (a + b)[1..] == a[1..] + b;
    }
  }

  lemma {:induction false} HeadOfJoined(path: Path)
    requires path != ROOT && Clean(path)
    ensures BeforeSlash(Joined(path)) == path[0]
    ensures Joined(path) == path[0] <==> |path| == 1
    ensures |path| > 1 ==> Joined(path)[|path[0]| + 1..] == Joined(path[1..])
    ensures Joined(path) != "."
  {
    var text := Joined(path);
    assert CleanName(path[0]);
    assert path[0] <= text;
    BeforeSlashUnique(text, path[0]);
  }

  lemma BeforeSlashUnique(s: string, head: string)
    requires head <= s && '/' !in head
    requires head == s || s[|head|] == '/'
    ensures BeforeSlash(s) == head
  {
  }

  /** Distinct cleaned paths have distinct texts. */
  lemma {:induction false} RenderInjective(a: Path, b: Path)
    requires Clean(a) && Clean(b) && Render(a) == Render(b)
    ensures a == b
    decreases |a|
  {
    if a == ROOT || b == ROOT {
      if a != ROOT { HeadOfJoined(a); }
      if b != ROOT { HeadOfJoined(b); }
    } else {
      HeadOfJoined(a);
      HeadOfJoined(b);
      if |a| > 1 {
        HeadOfJoined(a[1..]);
        HeadOfJoined(b[1..]);
        RenderInjective(a[1..], b[1..]);
        assert a == [a[0]] + a[1..] && b == [b[0]] + b[1..];
      } else {
        assert a == [a[0]] && b == [b[0]];
      }
    }
  }

  /** The textual descendant test is the prefix order, in both directions. */
  lemma {:induction false} DescendantText(path: Path, root: Path)
    requires Clean(path) && Clean(root) && root != ROOT
    ensures SamePathOrDescendant(Render(path), Render(root)) <==> Under(path, root)
    decreases |root|
  {
    if Under(path, root) {
      var rest := path[|root|..];
      assert path == root + rest;
      if rest != ROOT { JoinedConcat(root, rest); } else { assert path == root; }
    }
    if SamePathOrDescendant(Render(path), Render(root)) {
      if Render(path) == Render(root) {
        RenderInjective(path, root);
      } else {
        DescendantTextBack(path, root);
      }
    }
  }

  lemma {:induction false} DescendantTextBack(path: Path, root: Path)
    requires Clean(path) && Clean(root) && root != ROOT
    requires HasPrefix(Render(path), Render(root) + "/")
    ensures Under(path, root)
    decreases |root|
  {
    HeadOfJoined(root);
    if path == ROOT {
      assert false;
    }
    HeadOfJoined(path);
    var text, prefix := Joined(path), Joined(root) + "/";
    var head := root[0];
    assert prefix[|head|] == '/' && text[|head|] == '/';
    assert head <= prefix <= text;
    BeforeSlashUnique(text, head);
    assert path[0] == head;
    assert |path| > 1;
    if |root| > 1 {
      var tail := Joined(root[1..]) + "/";
      assert prefix[|head| + 1..] == tail;
      assert text[|head| + 1..] == Joined(path[1..]);
      assert tail == prefix[|head| + 1..] <= text[|head| + 1..];
      DescendantTextBack(path[1..], root[1..]);
      assert path == [head] + path[1..] && root == [head] + root[1..];
    } else {
      assert root == [head] && path[..1] == [head];
    }
  }

  /** `newRoot + strings.TrimPrefix(path, oldRoot)` is Rebase. */
  lemma RebaseText(path: Path, oldRoot: Path, newRoot: Path)
    requires oldRoot != ROOT && newRoot != ROOT && Under(path, oldRoot)
    ensures Render(Rebase(path, oldRoot, newRoot)) == Render(newRoot) + TrimPrefix(Render(path), Render(oldRoot))
  {
    var rest := path[|oldRoot|..];
    assert path == oldRoot + rest;
    if rest == ROOT {
      assert path == oldRoot && newRoot + rest == newRoot;
      assert Render(path)[|Render(oldRoot)|..] == "";
      assert Render(newRoot) + "" == Render(newRoot);
    } else {
      JoinedConcat(oldRoot, rest);
      JoinedConcat(newRoot, rest);
      var a, b, r := Joined(oldRoot), Joined(newRoot), Joined(rest);
      assert a + "/" + r == a + ("/" + r);
      assert b + "/" + r == b + ("/" + r);
    }
  }

  /** childName cuts out the component just below the parent. */
  lemma ChildNameText(path: Path, parent: Path)
    requires Clean(path) && StrictlyUnder(path, parent)
    ensures BeforeSlash(if parent == ROOT then Render(path) else TrimPrefix(Render(path), Render(parent) + "/")) ==
            path[|parent|]
  {
    var rest := path[|parent|..];
    assert path == parent + rest && rest[0] == path[|parent|];
    forall i | 0 <= i < |rest| ensures CleanName(rest[i]) { assert rest[i] == path[|parent| + i]; }
    HeadOfJoined(rest);
    if parent == ROOT {
      assert rest == path;
    } else {
      JoinedConcat(parent, rest);
      var a, r := Joined(parent) + "/", Joined(rest);
      assert Render(path) == a + r;
      assert (a + r)[|a|..] == r;
    }
  }

  lemma {:induction false} DirCut(s: string, tail: string)
    requires '/' !in tail
    ensures Dir(s + "/" + tail) == s
  {
    var text := s + "/" + tail;
    assert text[|s|] == '/';
    if tail == "" {
      assert text[..|text| - 1] == s;
    } else {
      var shorter := tail[..|tail| - 1];
      assert text[..|text| - 1] == s + "/" + shorter;
      assert text[|text| - 1] == tail[|tail| - 1];
      DirCut(s, shorter);
    }
  }

  /** filepath.Dir is Parent. */
  lemma DirText(path: Path)
    requires Clean(path) && path != ROOT
    ensures Dir(Render(path)) == Render(Parent(path))
  {
    var up, name := Parent(path), BaseName(path);
    assert path == up + [name];
    assert CleanName(name);
    if up == ROOT {
      assert path == [name];
    } else {
      JoinedConcat(up, [name]);
      DirCut(Joined(up), name);
    }
  }
}
