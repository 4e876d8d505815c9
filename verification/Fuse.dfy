/**
 * The FUSE calls that change the tree: checks, copy-up, the engine's operation, and the inode
 * table after it.
 */
module Fuse {
  import opened Paths
  import opened Model
  import opened Overlays
  import opened OverlayEffects
  import opened OverlayStore
  import opened RenameViews
  import opened TreeWalks
  import opened Engines
  import opened Inodes

  /** A visible source, and a destination of its own sort if there is one. */
  ghost predicate Replaceable(ov: Overlay, base: Base, oldPath: Path, newPath: Path) {
    && Resolve(ov, base, oldPath).Some?
    && (Resolve(ov, base, newPath).Some? ==>
          (Resolve(ov, base, oldPath) == Some(DirNode) <==> Resolve(ov, base, newPath) == Some(DirNode)))
  }

  /** A directory moves as a tree, anything else as one node. */
  ghost predicate RenamedAs(before: Overlay, after: Overlay, base: Base, oldPath: Path, newPath: Path) {
    if Resolve(before, base, oldPath) == Some(DirNode)
    then TreeShaped(before, base) ==>
           && Apart(oldPath, newPath) && EmptyOrAbsent(before, base, newPath)
           && TreeMoved(before, after, base, oldPath, newPath)
           && TreeLanded(before, after, base, oldPath, newPath)
    else
      && LeafRenamed(before, after, base, oldPath, newPath)
      && Landed(before, after, base, oldPath, newPath, true)
  }

  /** Every inode in use follows the rename. */
  ghost predicate IdentitiesKept(before: Overlay, after: Overlay, base: Base, t: Table, now: Table, oldPath: Path,
      newPath: Path) {
    forall id :: id in t.inodes && !t.inodes[id].stale ==> IdentityAt(before, after, base, t, now, oldPath, newPath, id)
  }

  /** Whatever was renamed, the moved inode table still names what it named. */
  lemma IdentityAfterRename(before: Overlay, after: Overlay, base: Base, t: Table, oldPath: Path, newPath: Path)
    requires Inverse(t) && TreeShaped(before, base) && oldPath != newPath
    requires Replaceable(before, base, oldPath, newPath) && RenamedAs(before, after, base, oldPath, newPath)
    ensures IdentitiesKept(before, after, base, t, Move(t, oldPath, newPath), oldPath, newPath)
  {
    forall id | id in t.inodes && !t.inodes[id].stale
      ensures IdentityAt(before, after, base, t, Move(t, oldPath, newPath), oldPath, newPath, id)
    {
      if Resolve(before, base, oldPath) == Some(DirNode) {
        IdentityFollowsRename(before, after, base, t, oldPath, newPath, id);
      } else {
        IdentityFollowsLeaf(before, after, base, t, oldPath, newPath, LeftBehind(before, base, oldPath), id);
      }
    }
  }

  method CheckEnds(ov: Overlay, base: Base, oldPath: Path, newPath: Path) returns (isDir: bool, err: Error)
    ensures isDir <==> Resolve(ov, base, oldPath) == Some(DirNode)
    ensures err == OK <==>
              && Resolve(ov, base, oldPath).Some?
              && (oldPath == newPath || (Replaceable(ov, base, oldPath, newPath)
                 && !(isDir && StrictlyUnder(newPath, oldPath))))
    ensures err == OK && !isDir ==> CopyableOrAbsent(ov, base, oldPath) && CopyableOrAbsent(ov, base, newPath)
  {
    isDir := false;
    var source := Lookup(ov, base, oldPath);
    if source.None? { return isDir, NotExist; }
    isDir := source.value.Type().DirType?;
    if oldPath == newPath { return isDir, OK; }
    if isDir && StrictlyUnder(newPath, oldPath) { return isDir, Invalid; }
    var destination := Lookup(ov, base, newPath);
    if destination.Some? && isDir != destination.value.Type().DirType? { return isDir, Invalid; }
    err := OK;
  }

  /** Renaming once more a file that a rename put over a tracked path leaves nothing behind there. */
  lemma RenamedTwiceLeavesNothing(s0: Overlay, s1: Overlay, s2: Overlay, base: Base, t: Path, a: Path, b: Path)
    requires t != a && a != b && RenamedAs(s0, s1, base, t, a) && RenamedAs(s1, s2, base, a, b)
    requires Resolve(s0, base, t).Some? && Resolve(s0, base, t).value.FileNode?
    ensures Resolve(s2, base, b) == Resolve(s0, base, t) && Resolve(s2, base, a) == None
  {
    assert !UncoversBase(s1, base, a);
  }

  /** Both ends of a file rename have rows or can be given them. */
  predicate EndsRowable(ov: Overlay, base: Base, oldPath: Path, newPath: Path) {
    Rowable(ov, base, oldPath) && (Resolve(ov, base, newPath).Some? ==> Rowable(ov, base, newPath))
  }

  /** What a rename needs in order to succeed, once nothing fails. */
  ghost predicate CanRename(ov: Overlay, base: Base, oldPath: Path, newPath: Path) {
    if Resolve(ov, base, oldPath) == Some(DirNode) then
      && Renamable(ov, base, oldPath, newPath)
      && !ListsOrphan(ov, base, oldPath) && !ListsOrphan(ov, base, newPath)
    else
      && Replaceable(ov, base, oldPath, newPath) && EndsRowable(ov, base, oldPath, newPath)
      && !(newPath in base && base[newPath].typ.DirType?)
  }

  ghost predicate RowsStay(before: Overlay, after: Overlay) {
    forall p :: p in before.rows ==> p in after.rows && after.rows[p] == before.rows[p]
  }

  lemma AfterPromotion(ov: Overlay, promoted: Overlay, after: Overlay, base: Base, oldPath: Path, newPath: Path,
      isDir: bool, err: Error)
    requires oldPath != newPath && Resolve(ov, base, oldPath).Some?
    requires isDir <==> Resolve(ov, base, oldPath) == Some(DirNode)
    requires isDir ==> promoted == ov
    requires Unseen(ov, promoted, base) && LeftBehind(promoted, base, oldPath) == LeftBehind(ov, base, oldPath)
    requires RowsStay(ov, promoted)
    requires err != OK ==> Unseen(promoted, after, base)
    requires err == OK ==> RenamedAs(promoted, after, base, oldPath, newPath)
    ensures err != OK ==> Unseen(ov, after, base)
    ensures err == OK ==> RenamedAs(ov, after, base, oldPath, newPath)
  {
    if err == OK && !isDir { LeafRenamedFromSameView(ov, promoted, after, base, oldPath, newPath); }
  }

  class ArtifactFuse {
    const engine: Engine
    const table: InodeTable

    ghost predicate Valid()
      reads this, engine, engine.overlay, table
    {
      engine.Valid() && table.Valid()
    }

    constructor (engine: Engine, table: InodeTable)
      requires engine.Valid() && table.Valid()
      ensures Valid() && this.engine == engine && this.table == table
    {
      this.engine, this.table := engine, table;
    }

    method CreateFile(p: Path, mode: nat) returns (err: Error)
      requires Valid()
      modifies engine.overlay, table
      ensures Valid()
      ensures err == OK ==>
                && Now(old(engine.overlay.State()), engine.overlay.State(), engine.base, p,
                   Some(FileNode(Data([]), Perm(mode))))
                && BareNow(old(engine.overlay.State()), engine.overlay.State(), p, true)
                && table.State() == Alloc(old(table.State()), p)
      ensures err != OK ==>
                table.State() == old(table.State())
                    && Unseen(old(engine.overlay.State()), engine.overlay.State(), engine.base)
      ensures engine.overlay.reliable ==> err == OK
    {
      err := engine.Create(p, mode);
      if err == OK { var _ := table.AllocInode(p); }
    }

    method CreateSymlink(p: Path, text: Bytes) returns (err: Error)
      requires Valid()
      modifies engine.overlay, table
      ensures Valid()
      ensures err == OK ==>
                && Now(old(engine.overlay.State()), engine.overlay.State(), engine.base, p, Some(LinkNode(Data(text))))
                && BareNow(old(engine.overlay.State()), engine.overlay.State(), p, true)
                && table.State() == Alloc(old(table.State()), p)
      ensures err != OK ==>
                table.State() == old(table.State())
                    && Unseen(old(engine.overlay.State()), engine.overlay.State(), engine.base)
      ensures |text| > MAX_SYMLINK_TARGET_BYTES ==> err == TooLong
      ensures engine.overlay.reliable && |text| <= MAX_SYMLINK_TARGET_BYTES ==> err == OK
    {
      if |text| > MAX_SYMLINK_TARGET_BYTES { return TooLong; }
      err := engine.Symlink(p, text);
      if err == OK { var _ := table.AllocInode(p); }
    }

    method MkDir(p: Path, mode: nat) returns (err: Error)
      requires Valid()
      modifies engine.overlay, table
      ensures Valid()
      ensures err == OK ==>
                && Now(old(engine.overlay.State()), engine.overlay.State(), engine.base, p, Some(DirNode))
                && BareNow(old(engine.overlay.State()), engine.overlay.State(), p, false)
                && HasDirectoryRow(engine.overlay.State(), p, mode)
                && table.State() == Alloc(old(table.State()), p)
      ensures err != OK ==>
                table.State() == old(table.State())
                    && Unseen(old(engine.overlay.State()), engine.overlay.State(), engine.base)
      ensures engine.overlay.reliable ==> err == OK
    {
      err := engine.Mkdir(p, mode);
      if err == OK { var _ := table.AllocInode(p); }
    }

    /** Unlink copies the node up first, so that open handles can be pinned to its backing file. */
    method Unlink(p: Path) returns (err: Error)
      requires Valid()
      modifies engine.overlay
      ensures Valid()
      ensures err == OK ==>
                && Now(old(engine.overlay.State()), engine.overlay.State(), engine.base, p, None)
                && BareNow(old(engine.overlay.State()), engine.overlay.State(), p, false)
      ensures err != OK ==>
                || Unseen(old(engine.overlay.State()), engine.overlay.State(), engine.base)
                || (!CopyableOrAbsent(old(engine.overlay.State()), engine.base, p)
                    && Now(old(engine.overlay.State()), engine.overlay.State(), engine.base, p,
                           Some(CopiedUp(engine.base[p])))
                    && SameBare(old(engine.overlay.State()), engine.overlay.State()))
      ensures engine.overlay.reliable ==> (err == OK <==> Rowable(old(engine.overlay.State()), engine.base, p))
    {
      err := engine.EnsureOverlay(p);
      if err != OK { return IOError; }
      err := engine.Unlink(p);
    }

    /** Copy-up of what a file rename touches: both ends get rows, nobody sees a change. */
    method PromoteEnds(oldPath: Path, newPath: Path) returns (err: Error)
      requires Valid()
      requires CopyableOrAbsent(engine.overlay.State(), engine.base, oldPath) && oldPath != newPath
      requires CopyableOrAbsent(engine.overlay.State(), engine.base, newPath)
      modifies engine.overlay
      ensures Valid()
      ensures Unseen(old(engine.overlay.State()), engine.overlay.State(), engine.base)
      ensures LeftBehind(engine.overlay.State(), engine.base, oldPath) ==
              LeftBehind(old(engine.overlay.State()), engine.base, oldPath)
      ensures err == OK ==> oldPath in engine.overlay.rows
      ensures RowsStay(old(engine.overlay.State()), engine.overlay.State())
      ensures engine.overlay.reliable ==>
                (err == OK <==> EndsRowable(old(engine.overlay.State()), engine.base, oldPath, newPath))
    {
      err := engine.EnsureOverlay(oldPath);
      if err != OK { return IOError; }
      var destination := Lookup(engine.overlay.State(), engine.base, newPath);
      if destination.Some? {
        err := engine.EnsureOverlay(newPath);
        if err != OK { return IOError; }
      }
    }

    method Rename(oldPath: Path, newPath: Path) returns (err: Error)
      requires Valid() && oldPath != ROOT && newPath != ROOT
      modifies engine.overlay, table
      ensures Valid()
      ensures err != OK || oldPath == newPath ==>
                table.State() == old(table.State())
                    && Unseen(old(engine.overlay.State()), engine.overlay.State(), engine.base)
      ensures err == OK && oldPath != newPath ==> table.State() == Move(old(table.State()), oldPath, newPath)
      ensures err == OK ==> Replaceable(old(engine.overlay.State()), engine.base, oldPath, newPath)
      ensures err == OK && oldPath != newPath ==>
                RenamedAs(old(engine.overlay.State()), engine.overlay.State(), engine.base, oldPath, newPath)
      ensures err == OK && oldPath != newPath && TreeShaped(old(engine.overlay.State()), engine.base) ==>
                IdentitiesKept(old(engine.overlay.State()), engine.overlay.State(), engine.base,
                               old(table.State()), table.State(), oldPath, newPath)
      ensures engine.overlay.reliable && oldPath == newPath ==>
                (err == OK <==> Resolve(old(engine.overlay.State()), engine.base, oldPath).Some?)
      ensures engine.overlay.reliable && TreeShaped(old(engine.overlay.State()), engine.base) && oldPath != newPath ==>
                (err == OK <==> CanRename(old(engine.overlay.State()), engine.base, oldPath, newPath))
    {
      var ov := engine.overlay.State();
      var isDir;
      isDir, err := CheckEnds(ov, engine.base, oldPath, newPath);
      if err != OK || oldPath == newPath { return; }
      if !isDir {
        err := PromoteEnds(oldPath, newPath);
        if err != OK { return; }
      }
      ghost var promoted := engine.overlay.State();
      err := engine.Rename(oldPath, newPath);
      AfterPromotion(ov, promoted, engine.overlay.State(), engine.base, oldPath, newPath, isDir, err);
      if err != OK { return; }
      if TreeShaped(ov, engine.base) {
        IdentityAfterRename(ov, engine.overlay.State(), engine.base, table.State(), oldPath, newPath);
      }
      table.MoveInodePath(oldPath, newPath);
    }
  }
}
