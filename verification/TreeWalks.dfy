/**
 * Walks over the merged view and over one snapshot generation, as a directory rename makes them.
 * `*` stands for an I/O or database failure, which is met only when the walk is not reliable.
 */
module TreeWalks {
  import opened Paths
  import opened Model
  import opened Overlays
  import opened OverlayStore
  import opened Listing
  import opened RenameViews

  datatype Resolved = InOverlay(e: Entry) | InBase(n: BaseNode)
  {
    function Type(): NodeType {
      match this
      case InOverlay(e) => e.NodeType()
      case InBase(n) => n.typ
    }
  }

  function Lookup(ov: Overlay, base: Base, p: Path): Option<Resolved> {
    if p in ov.rows then if ov.rows[p].IsDeleted() then None else Some(InOverlay(ov.rows[p]))
    else if p in base then Some(InBase(base[p]))
    else None
  }

  /** A visited node: its path and what it resolved to. */
  datatype Visited = Visited(path: Path, node: Resolved)

  /** The walk reports each path with what it resolves to. */
  ghost predicate Truthful(ov: Overlay, base: Base, root: Path, visited: seq<Visited>) {
    forall i :: 0 <= i < |visited| ==>
      Under(visited[i].path, root) && Lookup(ov, base, visited[i].path) == Some(visited[i].node)
  }

  ghost predicate Visits(visited: seq<Visited>, p: Path) {
    exists i :: 0 <= i < |visited| && visited[i].path == p
  }

  ghost predicate Complete(ov: Overlay, base: Base, root: Path, visited: seq<Visited>) {
    forall p :: Under(p, root) && Resolve(ov, base, p).Some? ==> Visits(visited, p)
  }

  /** No path of the set is longer. */
  ghost function LengthBound(paths: set<Path>): (bound: nat)
    ensures forall p :: p in paths ==> |p| <= bound
  {
    if paths == {} then 0
    else
      var p :| p in paths;
      var rest := LengthBound(paths - {p});
      assert paths == (paths - {p}) + {p};
      if |p| <= rest then rest else |p|
  }

  lemma ListedIsBounded(ov: Overlay, base: Base, p: Path, bound: nat)
    requires forall q :: q in ov.rows.Keys + base.Keys ==> |q| <= bound
    requires ChildAt(ov, base, p).Some?
    ensures |p| <= bound
  {
  }

  lemma VisitsGrow(visited: seq<Visited>, more: seq<Visited>)
    ensures forall p :: Visits(visited, p) || Visits(more, p) ==> Visits(visited + more, p)
  {
    var all := visited + more;
    forall p | Visits(visited, p) || Visits(more, p) ensures Visits(all, p) {
      if i :| 0 <= i < |visited| && visited[i].path == p { assert all[i].path == p; }
      if i :| 0 <= i < |more| && more[i].path == p { assert all[|visited| + i].path == p; }
    }
  }

  /** Children cover everything visible below a directory. */
  lemma CompleteFromChildren(ov: Overlay, base: Base, path: Path, children: seq<ReaddirEntry>, visited: seq<Visited>)
    requires TreeShaped(ov, base) && Visits(visited, path)
    requires forall name :: ChildAt(ov, base, path + [name]).Some? ==>
        exists i :: 0 <= i < |children| && children[i].name == name
    requires forall i :: 0 <= i < |children| ==> Complete(ov, base, path + [children[i].name], visited)
    ensures Complete(ov, base, path, visited)
  {
    forall p | Under(p, path) && Resolve(ov, base, p).Some? ensures Visits(visited, p) {
      UnderSplits(p, path);
      if p != path {
        FirstStep(p, path);
        VisibleAncestors(ov, base, path + [p[|path|]], p);
      }
    }
  }

  lemma LeafIsComplete(ov: Overlay, base: Base, path: Path, visited: seq<Visited>)
    requires TreeShaped(ov, base) && Visits(visited, path)
    requires Lookup(ov, base, path).Some? && !Lookup(ov, base, path).value.Type().DirType?
    ensures Complete(ov, base, path, visited)
  {
    forall p | Under(p, path) && Resolve(ov, base, p).Some? ensures Visits(visited, p) {
      UnderSplits(p, path);
      if p != path { VisibleAncestors(ov, base, path, p); }
    }
  }

  /** A listing of a visible directory at or below `root` shows a name that does not resolve. */
  ghost predicate ListsOrphan(ov: Overlay, base: Base, root: Path) {
    exists c :: StrictlyUnder(c, root) && OrphanName(ov, base, c) && Resolve(ov, base, Parent(c)) == Some(DirNode)
  }

  /** What a successful walk reports. */
  ghost predicate WalkDone(ov: Overlay, base: Base, path: Path, visited: seq<Visited>) {
    && Truthful(ov, base, path, visited) && Lookup(ov, base, path).Some?
    && (TreeShaped(ov, base) ==> Complete(ov, base, path, visited) && !ListsOrphan(ov, base, path))
  }

  /** The walk below `path` has covered its first `i` children. */
  ghost predicate Walked(ov: Overlay, base: Base, path: Path, children: seq<ReaddirEntry>, i: nat,
      visited: seq<Visited>)
    requires i <= |children|
  {
    && Truthful(ov, base, path, visited) && Visits(visited, path)
    && (TreeShaped(ov, base) ==> forall j :: 0 <= j < i ==> Complete(ov, base, path + [children[j].name], visited))
    && NoOrphanYet(ov, base, path, children, i)
  }

  ghost predicate NoOrphanYet(ov: Overlay, base: Base, path: Path, children: seq<ReaddirEntry>, i: nat)
    requires i <= |children|
  {
    forall j :: 0 <= j < i ==>
      var c := path + [children[j].name];
      Lookup(ov, base, c).Some? && (TreeShaped(ov, base) ==> !ListsOrphan(ov, base, c))
  }

  lemma WalkedGrows(ov: Overlay, base: Base, path: Path, children: seq<ReaddirEntry>, i: nat,
                    visited: seq<Visited>, below: seq<Visited>)
    requires i < |children| && Walked(ov, base, path, children, i, visited)
    requires WalkDone(ov, base, path + [children[i].name], below)
    ensures Walked(ov, base, path, children, i + 1, visited + below)
  {
    VisitsGrow(visited, below);
    TruthfulJoins(ov, base, path, path + [children[i].name], visited, below);
    if TreeShaped(ov, base) { CompleteOneMore(ov, base, path, children, i, visited, below, visited + below); }
  }

  lemma CompleteOneMore(ov: Overlay, base: Base, path: Path, children: seq<ReaddirEntry>, i: nat,
                        visited: seq<Visited>, below: seq<Visited>, all: seq<Visited>)
    requires i < |children| && forall j :: 0 <= j < i ==> Complete(ov, base, path + [children[j].name], visited)
    requires Complete(ov, base, path + [children[i].name], below)
    requires forall p :: Visits(visited, p) || Visits(below, p) ==> Visits(all, p)
    ensures forall j :: 0 <= j < i + 1 ==> Complete(ov, base, path + [children[j].name], all)
  {
  }

  lemma TruthfulJoins(ov: Overlay, base: Base, path: Path, child: Path, visited: seq<Visited>, below: seq<Visited>)
    requires Truthful(ov, base, path, visited) && Truthful(ov, base, child, below) && Under(child, path)
    ensures Truthful(ov, base, path, visited + below)
  {
  }

  /** ListByPrefix: every row strictly below the path, and whatever else LIKE lets through. */
  method ListByPrefix(ov: Overlay, path: Path) returns (matched: seq<Path>)
    ensures CoversRowsUnder(ov.rows, path, matched)
  {
    matched := [];
    var rest := ov.rows.Keys;
    while rest != {}
      invariant rest <= ov.rows.Keys
      invariant forall p :: p in matched ==> p in ov.rows
      invariant forall p :: p in ov.rows && StrictlyUnder(p, path) ==> p in matched || p in rest
    {
      var p :| p in rest;
      var alsoMatches: bool := *;
      if StrictlyUnder(p, path) || alsoMatches { matched := matched + [p]; }
      rest := rest - {p};
    }
  }

  /** Children that list no orphan cover everything below a directory. */
  lemma NoOrphanFromChildren(ov: Overlay, base: Base, path: Path, children: seq<ReaddirEntry>)
    requires TreeShaped(ov, base)
    requires forall name :: ChildAt(ov, base, path + [name]).Some? ==>
        exists i :: 0 <= i < |children| && children[i].name == name
    requires forall i :: 0 <= i < |children| ==>
               var c := path + [children[i].name];
               !ListsOrphan(ov, base, c) && Lookup(ov, base, c).Some?
    ensures !ListsOrphan(ov, base, path)
  {
    forall c | StrictlyUnder(c, path) && Resolve(ov, base, Parent(c)) == Some(DirNode)
      ensures !OrphanName(ov, base, c)
    {
      ParentUnder(c, path);
      UnderSplits(Parent(c), path);
      var child := path + [c[|path|]];
      FirstStep(c, path);
      if Parent(c) == path {
        assert c == child;
      } else {
        FirstStep(Parent(c), path);
        VisibleAncestors(ov, base, child, Parent(c));
        assert ChildAt(ov, base, child).Some?;
        StrictlyBelowChild(c, path);
      }
    }
  }

  lemma StrictlyBelowChild(c: Path, path: Path)
    requires StrictlyUnder(c, path) && |c| > |path| + 1
    ensures StrictlyUnder(c, path + [c[|path|]])
  {
    FirstStep(c, path);
  }

  lemma LeafDone(ov: Overlay, base: Base, path: Path, node: Resolved)
    requires Lookup(ov, base, path) == Some(node) && !node.Type().DirType?
    ensures WalkDone(ov, base, path, [Visited(path, node)])
  {
    var visited := [Visited(path, node)];
    assert visited[0].path == path;
    if TreeShaped(ov, base) {
      LeafIsComplete(ov, base, path, visited);
      forall c | StrictlyUnder(c, path) && Resolve(ov, base, Parent(c)) == Some(DirNode) ensures false {
        ParentUnder(c, path);
        UnderSplits(Parent(c), path);
        VisibleAncestors(ov, base, path, Parent(c));
      }
    }
  }

  /** The listing of a directory is complete, and so is the walk that has covered it. */
  lemma DirectoryDone(ov: Overlay, base: Base, path: Path, children: seq<ReaddirEntry>, visited: seq<Visited>)
    requires Walked(ov, base, path, children, |children|, visited) && Lookup(ov, base, path).Some?
    requires forall name :: ChildAt(ov, base, path + [name]).Some? ==>
        exists i :: 0 <= i < |children| && children[i].name == name
    ensures WalkDone(ov, base, path, visited)
  {
    if TreeShaped(ov, base) {
      CompleteFromChildren(ov, base, path, children, visited);
      NoOrphanFromChildren(ov, base, path, children);
    }
  }

  /** A listed child that does not resolve, or lists an orphan itself. */
  lemma FailedChildListsOrphan(ov: Overlay, base: Base, path: Path, name: string)
    requires ChildAt(ov, base, path + [name]).Some? && Resolve(ov, base, path) == Some(DirNode)
    requires Lookup(ov, base, path + [name]).None? || ListsOrphan(ov, base, path + [name])
    ensures ListsOrphan(ov, base, path)
  {
    var child := path + [name];
    assert Parent(child) == path && StrictlyUnder(child, path);
    if c :| StrictlyUnder(c, child) && OrphanName(ov, base, c) && Resolve(ov, base, Parent(c)) == Some(DirNode) {
      assert c[..|path|] == path;
    }
  }

  /**
   * mergedTree: every node reachable from `path` through listings, each with what it resolves
   * to.  Without I/O failures the walk succeeds unless it comes across an orphan.
   */
  method MergedTree(ov: Overlay, base: Base, path: Path, reliable: bool, ghost bound: nat)
      returns (visited: seq<Visited>, err: Error)
    requires forall q :: q in ov.rows.Keys + base.Keys ==> |q| <= bound
    ensures err in {OK, NotExist, IOError}
    ensures err == OK ==> WalkDone(ov, base, path, visited)
    ensures reliable && err != OK ==> Lookup(ov, base, path).None? || ListsOrphan(ov, base, path)
    decreases bound - |path|
  {
    if !reliable { if * { return [], IOError; } }
    var found := Lookup(ov, base, path);
    if found.None? { return [], NotExist; }
    visited, err := [Visited(path, found.value)], OK;
    if !found.value.Type().DirType? {
      LeafDone(ov, base, path, found.value);
      return;
    }
    assert visited[0].path == path;
    var matched := ListByPrefix(ov, path);
    var children := ReaddirTyped(ov, base, path, matched);
    for i := 0 to |children|
      invariant err == OK && Walked(ov, base, path, children, i, visited)
    {
      var name := children[i].name;
      ListedIsBounded(ov, base, path + [name], bound);
      var below;
      below, err := MergedTree(ov, base, path + [name], reliable, bound);
      if err != OK {
        if reliable { FailedChildListsOrphan(ov, base, path, name); }
        return;
      }
      WalkedGrows(ov, base, path, children, i, visited, below);
      visited := visited + below;
    }
    DirectoryDone(ov, base, path, children, visited);
  }

  /** Below a tracked directory lie its tracked children and what lies below them. */
  lemma BaseUnderChildren(base: Base, path: Path, p: Path)
    requires WellFormedBase(base) && p in BaseUnder(base, path)
    ensures path in base
    ensures p != path ==> base[path].typ.DirType?
    ensures p != path ==> exists c :: c in BaseChildren(base, path) && p in BaseUnder(base, c)
  {
    BaseHoldsAncestors(base, p, path);
    UnderSplits(p, path);
    if p != path {
      var c := path + [p[|path|]];
      FirstStep(p, path);
      BaseHoldsAncestors(base, p, c);
      assert Parent(c) == path;
      assert c in BaseChildren(base, path);
    }
  }

  /** snapshotTreePaths' walk: every tracked path at or below a tracked one. */
  method BaseWalk(base: Base, path: Path, reliable: bool, ghost bound: nat) returns (out: seq<Path>, err: Error)
    requires WellFormedBase(base) && path in base && forall q :: q in base ==> |q| <= bound
    ensures err == OK || (err == IOError && !reliable)
    ensures err == OK ==> Elements(out) == BaseUnder(base, path)
    decreases bound - |path|
  {
    out, err := [path], OK;
    assert Elements(out) == {path} && path in BaseUnder(base, path);
    if !base[path].typ.DirType? {
      forall p | p in BaseUnder(base, path) ensures p == path { BaseUnderChildren(base, path, p); }
      return;
    }
    if !reliable { if * { return out, IOError; } }
    var children := Listed(BaseChildren(base, path));
    for i := 0 to |children|
      invariant err == OK
      invariant Elements(out) <= BaseUnder(base, path)
      invariant path in Elements(out) && CoversFirst(base, children, i, out)
    {
      var child := children[i];
      assert child in Elements(children);
      ChildIsBelow(base, path, child);
      var below;
      below, err := BaseWalk(base, child, reliable, bound);
      if err != OK { return; }
      ElementsJoin(out, below);
      CoversOneMore(base, children, i, out, below);
      out := out + below;
    }
    WalkCovers(base, path, children, out);
  }

  /** Everything tracked at or below the first `i` children has been listed. */
  ghost predicate CoversFirst(base: Base, children: seq<Path>, i: nat, out: seq<Path>)
    requires i <= |children|
  {
    forall j :: 0 <= j < i ==> BaseUnder(base, children[j]) <= Elements(out)
  }

  lemma CoversOneMore(base: Base, children: seq<Path>, i: nat, out: seq<Path>, below: seq<Path>)
    requires i < |children| && CoversFirst(base, children, i, out) && BaseUnder(base, children[i]) == Elements(below)
    ensures CoversFirst(base, children, i + 1, out + below)
  {
  }

  lemma ChildIsBelow(base: Base, path: Path, child: Path)
    requires child in BaseChildren(base, path)
    ensures child in base && |child| == |path| + 1 && BaseUnder(base, child) <= BaseUnder(base, path)
  {
  }

  lemma WalkCovers(base: Base, path: Path, children: seq<Path>, out: seq<Path>)
    requires WellFormedBase(base) && Elements(children) == BaseChildren(base, path) && path in Elements(out)
    requires CoversFirst(base, children, |children|, out)
    ensures BaseUnder(base, path) <= Elements(out)
  {
    forall p | p in BaseUnder(base, path) ensures p in Elements(out) {
      BaseUnderChildren(base, path, p);
      if p != path {
        var c :| c in BaseChildren(base, path) && p in BaseUnder(base, c);
        assert c in Elements(children);
      }
    }
  }

  lemma ElementsJoin(a: seq<Path>, b: seq<Path>)
    ensures Elements(a + b) == Elements(a) + Elements(b)
  {
  }

  /** snapshotTreePaths */
  method SnapshotTreePaths(base: Base, root: Path, reliable: bool) returns (out: seq<Path>, err: Error)
    requires WellFormedBase(base)
    ensures err == OK || (err == IOError && !reliable)
    ensures err == OK ==> Elements(out) == BaseUnder(base, root)
  {
    if !reliable { if * { return [], IOError; } }
    if root !in base {
      forall p | p in BaseUnder(base, root) ensures false { BaseHoldsAncestors(base, p, root); }
      return [], OK;
    }
    out, err := BaseWalk(base, root, reliable, LengthBound(base.Keys));
  }
}
