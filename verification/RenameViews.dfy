/** What a user sees of a rename: the tree-level meaning of row and tree moves. */
module RenameViews {
  import opened Paths
  import opened Model
  import opened Overlays
  import opened OverlayEffects

  /** Every visible path has a visible directory as parent. */
  ghost predicate TreeShaped(ov: Overlay, base: Base) {
    forall p :: p != ROOT && Resolve(ov, base, p).Some? ==> Resolve(ov, base, Parent(p)) == Some(DirNode)
  }

  /** In a tree-shaped view, an invisible path has nothing visible below it, nor has a non-directory. */
  lemma {:induction false} NothingBelow(ov: Overlay, base: Base, root: Path, q: Path)
    requires TreeShaped(ov, base) && StrictlyUnder(q, root)
    requires Resolve(ov, base, root) != Some(DirNode)
    ensures Resolve(ov, base, q) == None
    decreases |q|
  {
    var up := Parent(q);
    assert q[..|root|] == root && up[..|root|] == root;
    if up != root {
      UnderSplits(up, root);
      NothingBelow(ov, base, root, up);
    }
  }

  /** Everything between a root and a visible path below it is a visible directory. */
  lemma {:induction false} VisibleAncestors(ov: Overlay, base: Base, root: Path, q: Path)
    requires TreeShaped(ov, base) && Under(q, root) && Resolve(ov, base, q).Some?
    ensures Resolve(ov, base, root).Some?
    ensures root != q ==> Resolve(ov, base, root) == Some(DirNode)
  {
    if root != q && Resolve(ov, base, root) != Some(DirNode) {
      UnderSplits(q, root);
      NothingBelow(ov, base, root, q);
    }
  }

  // ---------- Directories ----------

  /** rename() of a directory: the tree moves as a whole and nothing else changes. */
  ghost predicate TreeMoved(before: Overlay, after: Overlay, base: Base, oldPath: Path, newPath: Path) {
    && (forall q :: Under(q, newPath) ==> Resolve(after, base, q) == Resolve(before, base, Rebase(q, newPath, oldPath)))
    && (forall q :: Under(q, oldPath) ==> Resolve(after, base, q) == None)
    && (forall q :: !Under(q, oldPath) && !Under(q, newPath) ==> Resolve(after, base, q) == Resolve(before, base, q))
  }

  function BaseUnder(base: Base, root: Path): set<Path> {
    set p | p in base && Under(p, root)
  }

  /** Once every visible path below the old root has its own row, the tree rename is exact. */
  lemma TreeMoveExact(ov: Overlay, base: Base, oldPath: Path, newPath: Path)
    requires Owned(ov) && oldPath != newPath && TreeMoveError(ov, oldPath, newPath) == OK
    requires forall q :: Under(q, oldPath) && Resolve(ov, base, q).Some? ==> Live(ov, q)
    ensures TreeMoved(ov, RenameTree(ov, oldPath, newPath, BaseUnder(base, oldPath), BaseUnder(base, newPath)).ov,
                      base, oldPath, newPath)
  {
    var sourceBase, destBase := BaseUnder(base, oldPath), BaseUnder(base, newPath);
    TreeMoves(ov, oldPath, newPath, sourceBase, destBase);
    TreeMoveExactFor(ov, RenameTree(ov, oldPath, newPath, sourceBase, destBase).ov, base, oldPath, newPath);
  }

  lemma TreeMoveExactFor(ov: Overlay, after: Overlay, base: Base, oldPath: Path, newPath: Path)
    requires Live(ov, oldPath)
    requires MovesTree(ov, after, oldPath, newPath, BaseUnder(base, oldPath), BaseUnder(base, newPath))
    requires forall q :: Under(q, oldPath) && Resolve(ov, base, q).Some? ==> Live(ov, q)
    ensures TreeMoved(ov, after, base, oldPath, newPath)
  {
    forall q | Under(q, newPath)
      ensures Resolve(after, base, q) == Resolve(ov, base, Rebase(q, newPath, oldPath))
    {
      var p := Rebase(q, newPath, oldPath);
      RebaseBack(q, newPath, oldPath);
      assert Under(p, oldPath);
      UnderSplits(q, newPath);
      if q == newPath { assert p == oldPath; }
    }
  }

  lemma MovedChildHasParent(before: Overlay, after: Overlay, base: Base, oldPath: Path, newPath: Path, q: Path)
    requires TreeShaped(before, base) && TreeMoved(before, after, base, oldPath, newPath) && oldPath != ROOT
    requires StrictlyUnder(q, newPath) && Resolve(after, base, q).Some?
    ensures Resolve(after, base, Parent(q)) == Some(DirNode)
  {
    UnderSplits(q, newPath);
    ParentUnder(q, newPath);
    var p := Rebase(q, newPath, oldPath);
    assert p != ROOT && Rebase(Parent(q), newPath, oldPath) == Parent(p);
  }

  /** The moved view is again tree-shaped when the new parent is a visible directory. */
  lemma TreeMovedKeepsShape(before: Overlay, after: Overlay, base: Base, oldPath: Path, newPath: Path)
    requires TreeShaped(before, base) && TreeMoved(before, after, base, oldPath, newPath)
    requires Apart(oldPath, newPath) && oldPath != ROOT && newPath != ROOT
    requires Resolve(before, base, Parent(newPath)) == Some(DirNode)
    requires Resolve(before, base, newPath) in {None, Some(DirNode)}
    requires forall q :: StrictlyUnder(q, newPath) ==> Resolve(before, base, q) == None
    ensures TreeShaped(after, base)
  {
    forall q | q != ROOT && Resolve(after, base, q).Some? ensures Resolve(after, base, Parent(q)) == Some(DirNode) {
      if q == newPath {
        ParentUnder(newPath, oldPath);
        assert !Under(Parent(q), newPath);
      } else if Under(q, newPath) {
        MovedChildHasParent(before, after, base, oldPath, newPath, q);
      } else {
        ParentUnder(q, oldPath);
        ParentUnder(q, newPath);
      }
    }
  }

  // ---------- Files and links ----------

  /** rename() of a file: the node moves and nothing else changes. */
  ghost predicate NodeMoved(before: Overlay, after: Overlay, base: Base, oldPath: Path, newPath: Path) {
    && Resolve(after, base, newPath) == Resolve(before, base, oldPath)
    && Resolve(after, base, oldPath) == None
    && forall q :: q != oldPath && q != newPath ==> Resolve(after, base, q) == Resolve(before, base, q)
  }

  /** What the code's rename does: as above, except that the old path may fall through to the base. */
  ghost predicate NodeMovedLeaving(before: Overlay, after: Overlay, base: Base, oldPath: Path, newPath: Path,
      left: Option<Node>) {
    && Resolve(after, base, newPath) == Resolve(before, base, oldPath)
    && Resolve(after, base, oldPath) == left
    && forall q :: q != oldPath && q != newPath ==> Resolve(after, base, q) == Resolve(before, base, q)
  }

  /**
   * A created file, or a link with no recorded source: renaming it will leave no whiteout.  With
   * the view, this is all of a table that the views to come within a generation depend on.
   */
  predicate Bare(ov: Overlay, p: Path) {
    p in ov.rows && LeavesNoWhiteout(ov.rows[p])
  }

  ghost predicate SameBare(before: Overlay, after: Overlay) {
    forall q :: Bare(after, q) <==> Bare(before, q)
  }

  ghost predicate BareNow(before: Overlay, after: Overlay, p: Path, bare: bool) {
    (Bare(after, p) <==> bare) && forall q :: q != p ==> (Bare(after, q) <==> Bare(before, q))
  }

  /** Such a row standing over a tracked path. */
  predicate UncoversBase(ov: Overlay, base: Base, p: Path) {
    Bare(ov, p) && p in base
  }

  function LeftBehind(ov: Overlay, base: Base, p: Path): Option<Node> {
    if UncoversBase(ov, base, p) then Some(BaseShows(base[p])) else None
  }

  lemma RowMoveLeaves(ov: Overlay, after: Overlay, base: Base, oldPath: Path, newPath: Path)
    requires Live(ov, oldPath) && oldPath != newPath
    requires MovesRow(ov, after, oldPath, newPath, !LeavesNoWhiteout(ov.rows[oldPath]))
    ensures NodeMovedLeaving(ov, after, base, oldPath, newPath, LeftBehind(ov, base, oldPath))
  {
  }

  /** Either row rename of a file or link is exact if and only if the moved row uncovers no base node. */
  lemma RenameExactIff(ov: Overlay, base: Base, oldPath: Path, newPath: Path, oid: Oid, mode: nat)
    requires Owned(ov) && Live(ov, oldPath) && oldPath != newPath && !ov.rows[oldPath].kind.Mkdir?
    ensures NodeMoved(ov, RenameRow(ov, oldPath, newPath).ov, base, oldPath, newPath) <==>
        !UncoversBase(ov, base, oldPath)
    ensures ov.rows[oldPath].kind in {Create, Symlink} ==>
              (NodeMoved(ov, RenameOntoBase(ov, oldPath, newPath, oid, mode).ov, base, oldPath, newPath) <==>
                 !UncoversBase(ov, base, oldPath))
  {
    RenameRowMoves(ov, oldPath, newPath);
    RowMoveLeaves(ov, RenameRow(ov, oldPath, newPath).ov, base, oldPath, newPath);
    RenameOntoBaseMoves(ov, oldPath, newPath, oid, mode);
    if ov.rows[oldPath].kind in {Create, Symlink} {
      RowMoveLeaves(ov, RenameOntoBase(ov, oldPath, newPath, oid, mode).ov, base, oldPath, newPath);
    }
  }

  /** Removing any tracked node, creating a file anew and renaming it away brings the base node back. */
  lemma DeleteCreateRenameReappears(base: Base, p: Path, q: Path, mode: nat)
    requires WellFormedBase(base) && p in base && q !in base
    ensures var ov0 := Overlay(map[], map[], 0);
            var ov1 := RenameRow(CreateFile(Remove(ov0, p).ov, p, mode).ov, p, q).ov;
            && Resolve(ov1, base, q) == Some(FileNode(Data([]), Perm(mode)))
            && Resolve(ov1, base, p) == Some(BaseShows(base[p]))
  {
    var ov := CreateFile(Remove(Overlay(map[], map[], 0), p).ov, p, mode).ov;
    RenameRowMoves(ov, p, q);
  }
}
