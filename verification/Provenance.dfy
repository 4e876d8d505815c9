/**
 * Recorded sources: which base version a row says it came from.  Writing, removing, creating and
 * renaming a row keep a table in normal form exactly under the conditions stated; the next
 * reconcile restores it.
 */
module Provenance {
  import opened Paths
  import opened Model
  import opened Overlays
  import opened OverlayEffects
  import opened Reconciles
  import opened RenameViews

  /** A copied-up row records exactly the base node it was copied from. */
  lemma CopyUpRecordsSource(ov: Overlay, base: Base, p: Path, src: Option<Bytes>)
    requires p in base && !Live(ov, p) && !base[p].typ.DirType? && Hydrated(base[p], src)
    requires CopyUp(ov, p, base[p], src).err == OK
    ensures p in CopyUp(ov, p, base[p], src).ov.rows
    ensures NormalRow(p, CopyUp(ov, p, base[p], src).ov.rows[p], base)
  {
  }

  /** Rewriting a file keeps normal form unless it turns a renamed row into a modify of another base version. */
  lemma WriteIsNormalIff(ov: Overlay, base: Base, p: Path, off: nat, data: Bytes)
    requires NormalForm(ov, base) && Owned(ov) && Live(ov, p) && ov.rows[p].NodeType().FileType?
    ensures NormalForm(WriteFile(ov, p, off, data).ov, base) <==>
              (ov.rows[p].kind.Rename? ==> p in base && SameSource(ov.rows[p], base[p]))
  {
    var after := WriteFile(ov, p, off, data).ov;
    assert RowOwned(ov.rows[p], ov.files) && NormalRow(p, ov.rows[p], base);
    if NormalRow(p, after.rows[p], base) {
      forall q | q in after.rows ensures NormalRow(q, after.rows[q], base) {
        if q != p { assert after.rows[q] == ov.rows[q]; }
      }
    }
  }

  /** Removing keeps normal form exactly where there is a base node to hide. */
  lemma RemoveIsNormalIff(ov: Overlay, base: Base, p: Path)
    requires NormalForm(ov, base)
    ensures NormalForm(Remove(ov, p).ov, base) <==> p in base
  {
    var after := Remove(ov, p).ov;
    assert after.rows[p].kind.Delete?;
    forall q | q in after.rows && q != p
      ensures NormalRow(q, after.rows[q], base)
    {
      assert after.rows[q] == ov.rows[q];
    }
  }

  /** Creating keeps normal form exactly where there is none. */
  lemma CreateIsNormalIff(ov: Overlay, base: Base, p: Path, mode: nat)
    requires NormalForm(ov, base)
    ensures NormalForm(CreateFile(ov, p, mode).ov, base) <==> p !in base
  {
    var after := CreateFile(ov, p, mode).ov;
    assert after.rows[p].kind.Create?;
    forall q | q in after.rows && q != p
      ensures NormalRow(q, after.rows[q], base)
    {
      assert after.rows[q] == ov.rows[q];
    }
  }

  /** Moving a modified file leaves a rename row and a whiteout that both point at the old path. */
  lemma RenamingModifiedKeepsNormal(ov: Overlay, base: Base, oldPath: Path, newPath: Path)
    requires NormalForm(ov, base) && oldPath in ov.rows && ov.rows[oldPath].kind.Modify? && oldPath != newPath
    ensures NormalForm(RenameRow(ov, oldPath, newPath).ov, base)
  {
  }

  /** A renamed file moved again keeps its source; the whiteout it leaves is normal exactly where the base has it. */
  lemma RenamingRenamedIsNormalIff(ov: Overlay, base: Base, oldPath: Path, newPath: Path)
    requires Owned(ov) && NormalForm(ov, base)
    requires oldPath in ov.rows && ov.rows[oldPath].kind.Rename? && oldPath != newPath
    ensures NormalForm(RenameRow(ov, oldPath, newPath).ov, base) <==> SourcePath(oldPath, ov.rows[oldPath]) == oldPath
    ensures NormalRow(newPath, RenameRow(ov, oldPath, newPath).ov.rows[newPath], base)
  {
    var e := ov.rows[oldPath];
    assert NormalRow(oldPath, e, base);
    var after := RenameRow(ov, oldPath, newPath).ov;
    assert after.rows[newPath] == RenamedRow(e, oldPath) && after.rows[oldPath] == RenameWhiteout(e, oldPath);
    assert !NormalRow(oldPath, after.rows[oldPath], base) <==> SourcePath(oldPath, e) != oldPath || oldPath !in base;
    if SourcePath(oldPath, e) == oldPath {
      forall q | q in after.rows ensures NormalRow(q, after.rows[q], base) {
        if q != oldPath && q != newPath { assert NormalRow(q, ov.rows[q], base); }
      }
    }
  }

  /** Moving a created file keeps normal form unless it lands unmarked on a tracked path. */
  lemma RenamingCreatedIsNormalIff(ov: Overlay, base: Base, oldPath: Path, newPath: Path)
    requires NormalForm(ov, base) && oldPath in ov.rows && ov.rows[oldPath].kind.Create? && oldPath != newPath
    ensures NormalForm(RenameRow(ov, oldPath, newPath).ov, base) <==> newPath !in base
  {
    var after := RenameRow(ov, oldPath, newPath).ov;
    assert after.rows[newPath] == RenamedRow(ov.rows[oldPath], oldPath);
    if newPath !in base {
      forall q | q in after.rows ensures NormalRow(q, after.rows[q], base) {
        if q != oldPath && q != newPath { assert NormalRow(q, ov.rows[q], base); }
      }
    }
  }

  /** Which is why a created file landing on a tracked path is marked as modified from it. */
  lemma MarkingCreatedKeepsNormal(ov: Overlay, base: Base, oldPath: Path, newPath: Path)
    requires NormalForm(ov, base) && oldPath in ov.rows && ov.rows[oldPath].kind.Create? && oldPath != newPath
    requires newPath in base
    ensures NormalForm(RenameOntoBase(ov, oldPath, newPath, base[newPath].oid, base[newPath].mode).ov, base)
  {
  }

  /** A modified file carried along by a tree rename records the tracked path it left. */
  lemma CarryingRecordsSource(e: Entry, base: Base, p: Path, q: Path)
    requires e.kind.Modify? && e.target.NoTarget? && NormalRow(p, e, base)
    ensures NormalRow(q, CarriedRow(e, p, p in base), base) && SourcePath(q, CarriedRow(e, p, p in base)) == p
  {
  }

  /** A renamed file whose source is gone is a creation, or a change of what is tracked where it is now. */
  lemma LostRenameForgetsSource(ov: Overlay, base: Base, p: Path)
    requires p in ov.rows && ov.rows[p].kind.Rename? && SourcePath(p, ov.rows[p]) !in base
    requires p in Reconcile(ov, base).rows
    ensures var e := Reconcile(ov, base).rows[p];
            && e.target.NoTarget? && e.backing == ov.rows[p].backing
            && (if p in base then e.kind.Modify? && SameSource(e, base[p]) else e.kind.Create? && e.sourceOid.NoOid?)
  {
  }

  /** A carried directory has permission bits, even if its row still had Git's mode. */
  lemma CarriedDirectoryHasPermissions(e: Entry, p: Path, tracked: bool)
    requires e.kind.Mkdir? && (e.mode / 4096) % 16 == 4
    ensures Perm(CarriedRow(e, p, tracked).mode) != 0 && CarriedRow(e, p, tracked).backing == e.backing
  {
  }

  lemma SourcelessLeavesNoRow(ov: Overlay, q: Path, r: Path)
    requires q in ov.rows && LeavesNoWhiteout(ov.rows[q]) && q != r
    ensures q !in RenameRow(ov, q, r).ov.rows
  {
  }

  /** A moved link forgets its source, so a link renamed twice leaves no whiteout at the path in between. */
  lemma LinkPassesThrough(ov: Overlay, p: Path, q: Path, r: Path)
    requires p in ov.rows && ov.rows[p].kind.Symlink? && p != q && q != r
    ensures q !in RenameRow(RenameRow(ov, p, q).ov, q, r).ov.rows
  {
  }

  lemma CarriedRowIs(ov: Overlay, oldPath: Path, newPath: Path, sourceBase: set<Path>, destBase: set<Path>, p: Path)
    requires oldPath != newPath && TreeMoveError(ov, oldPath, newPath) == OK && Under(p, oldPath) && Live(ov, p)
    ensures var q, moved := Rebase(p, oldPath, newPath), RenameTree(ov, oldPath, newPath, sourceBase, destBase).ov;
            q in moved.rows && moved.rows[q] == CarriedRow(ov.rows[p], p, p in sourceBase)
  {
    TreeMoveApart(ov, oldPath, newPath);
    RebaseBack(p, oldPath, newPath);
    TreeRowAt(ov, oldPath, newPath, sourceBase, destBase, Rebase(p, oldPath, newPath));
  }

  /** Nor does one that a tree rename took away from a tracked path. */
  lemma CarriedLinkPassesThrough(ov: Overlay, oldPath: Path, newPath: Path, sourceBase: set<Path>, destBase: set<Path>,
                                 p: Path, r: Path)
    requires oldPath != newPath && TreeMoveError(ov, oldPath, newPath) == OK
    requires Under(p, oldPath) && p in ov.rows && ov.rows[p].kind.Symlink? && p in sourceBase
    ensures var q, moved := Rebase(p, oldPath, newPath), RenameTree(ov, oldPath, newPath, sourceBase, destBase).ov;
            r != q ==> q !in RenameRow(moved, q, r).ov.rows
  {
    var q, moved := Rebase(p, oldPath, newPath), RenameTree(ov, oldPath, newPath, sourceBase, destBase).ov;
    CarriedRowIs(ov, oldPath, newPath, sourceBase, destBase, p);
    if r != q { SourcelessLeavesNoRow(moved, q, r); }
  }

  /** In normal form only a link standing over a tracked path can uncover it when renamed. */
  lemma NormalFormUncoversOnlyByLinks(ov: Overlay, base: Base, p: Path)
    requires NormalForm(ov, base) && UncoversBase(ov, base, p)
    ensures ov.rows[p].kind.Symlink? && (base[p].typ.LinkType? ==> base[p].oid.NoOid?)
  {
  }

  /** And that does happen: on every base, a reconciled link over a tracked file brings the file back when renamed. */
  lemma ReconciledLinkUncovers(base: Base, p: Path, q: Path, text: Bytes)
    requires WellFormedBase(base) && p in base && base[p].typ.FileType? && p != q && |text| <= MAX_SYMLINK_TARGET_BYTES
    ensures var ov := Reconcile(CreateSymlink(Remove(Overlay(map[], map[], 0), p).ov, p, text).ov, base);
            && NormalForm(ov, base)
            && Resolve(RenameRow(ov, p, q).ov, base, p) == Some(BaseShows(base[p]))
  {
    var made := CreateSymlink(Remove(Overlay(map[], map[], 0), p).ov, p, text).ov;
    assert made.rows.Keys == {p} && RowFate(made, base, p).Keep?;
    ReconcileNormalizes(made, base);
    SourcelessLeavesNoRow(Reconcile(made, base), p, q);
  }
}
