/** What each store operation shows afterwards, and that backing-file ownership survives it. */
module OverlayEffects {
  import opened Paths
  import opened Model
  import opened Overlays

  /** Owned before and after, the given layer at one path, every other layer untouched. */
  ghost predicate Puts(before: Overlay, after: Overlay, p: Path, layer: Layer) {
    && Owned(after)
    && LayerAt(after, p) == layer
    && forall q :: q != p ==> LayerAt(after, q) == LayerAt(before, q)
  }

  lemma CreateFileShows(ov: Overlay, p: Path, mode: nat)
    requires Owned(ov)
    ensures CreateFile(ov, p, mode).err == OK
    ensures Puts(ov, CreateFile(ov, p, mode).ov, p, Shown(FileNode(Data([]), Perm(mode))))
  {
  }

  lemma CreateSymlinkShows(ov: Overlay, p: Path, text: Bytes)
    requires Owned(ov)
    ensures CreateSymlink(ov, p, text).err == if |text| <= MAX_SYMLINK_TARGET_BYTES then OK else TooLong
    ensures |text| <= MAX_SYMLINK_TARGET_BYTES ==>
              Puts(ov, CreateSymlink(ov, p, text).ov, p, Shown(LinkNode(Data(text))))
  {
  }

  lemma MkdirShows(ov: Overlay, p: Path, mode: nat)
    requires Owned(ov)
    ensures Puts(ov, MakeDir(ov, p, mode).ov, p, Shown(DirNode))
    ensures var e := MakeDir(ov, p, mode).ov.rows[p];
            (Perm(mode) != 0 ==> e.mode == mode) && ((mode / 4096) % 16 == 4 ==> Perm(e.mode) != 0)
  {
  }

  lemma RemoveHides(ov: Overlay, p: Path)
    requires Owned(ov)
    ensures Puts(ov, Remove(ov, p).ov, p, Hidden)
  {
  }

  /** A row with a new backing object of its own. */
  lemma NewBackingKeepsOwned(ov: Overlay, p: Path, e: Entry, made: Backing)
    requires Owned(ov) && e.backing == Some(ov.next) && RowOwned(e, map[ov.next := made])
    ensures Owned(Overlay(ov.rows[p := e], ov.files[ov.next := made], ov.next + 1))
  {
    var after := Overlay(ov.rows[p := e], ov.files[ov.next := made], ov.next + 1);
    forall q | q in ov.rows && q != p
      ensures RowOwned(after.rows[q], after.files)
    {
      assert RowOwned(ov.rows[q], ov.files);
    }
  }

  lemma CopyUpKeepsOwned(ov: Overlay, p: Path, n: BaseNode, src: Option<Bytes>)
    requires Owned(ov)
    ensures Owned(CopyUp(ov, p, n, src).ov)
  {
    if !Live(ov, p) && !n.typ.LinkType? {
      var data := if src.Some? then src.value else [];
      NewBackingKeepsOwned(ov, p, Entry(Modify, Some(ov.next), n.mode, |data|, n.oid, n.mode, NoTarget), FileObj(data));
    }
  }

  /** The hydrated content of a base node, as the copy-up source. */
  predicate Hydrated(n: BaseNode, src: Option<Bytes>) {
    match n.oid
    case NoOid => src.None?
    case Blob(content) => src == Some(content)
    case Other(_) => false
  }

  /** What a copied-up node shows: itself, but a directory turns into an empty file. */
  function CopiedUp(n: BaseNode): Node {
    if n.typ.DirType? then FileNode(Data([]), Perm(n.mode)) else BaseShows(n)
  }

  /** Copy-up of a file or link shows exactly what the base showed, permissions included. */
  lemma CopyUpShows(ov: Overlay, p: Path, n: BaseNode, src: Option<Bytes>)
    requires Owned(ov) && !Live(ov, p) && WellFormedNode(n) && Hydrated(n, src)
    ensures CopyUp(ov, p, n, src).err == OK ==> Puts(ov, CopyUp(ov, p, n, src).ov, p, Shown(CopiedUp(n)))
    ensures CopyUp(ov, p, n, src).err != OK ==> CopyUp(ov, p, n, src).ov == ov
    ensures CopyUp(ov, p, n, src).err == OK <==>
              (n.typ.LinkType? ==> src.Some? && |src.value| <= MAX_SYMLINK_TARGET_BYTES)
  {
    CopyUpKeepsOwned(ov, p, n, src);
    forall q | q != p ensures LayerAt(CopyUp(ov, p, n, src).ov, q) == LayerAt(ov, q) {
      assert q in ov.rows ==> RowOwned(ov.rows[q], ov.files);
    }
  }

  lemma RewrittenShows(ov: Overlay, p: Path, data: Bytes)
    requires Owned(ov) && Live(ov, p) && ov.rows[p].NodeType().FileType?
    ensures Puts(ov, Rewritten(ov, p, data), p, Shown(FileNode(Data(data), Perm(ov.rows[p].mode))))
  {
  }

  /** Writes reach exactly the live regular files; anything else fails and changes nothing. */
  lemma WriteFileShows(ov: Overlay, p: Path, off: nat, data: Bytes)
    requires Owned(ov)
    ensures var r := WriteFile(ov, p, off, data);
            match LayerAt(ov, p)
            case Shown(FileNode(Data(was), perm)) =>
              r.err == OK && Puts(ov, r.ov, p, Shown(FileNode(Data(Spliced(was, off, data)), perm)))
            case Shown(_) => r == Res(ov, IOError)
            case _ => r == Res(ov, NotExist)
  {
    if Live(ov, p) && ov.rows[p].NodeType().FileType? {
      RewrittenShows(ov, p, Spliced(BackingContent(ov.files, ov.rows[p].backing).data, off, data));
    }
  }

  lemma TruncateShows(ov: Overlay, p: Path, size: nat)
    requires Owned(ov)
    ensures var r := Truncate(ov, p, size);
            match LayerAt(ov, p)
            case Shown(FileNode(Data(was), perm)) =>
              r.err == OK && Puts(ov, r.ov, p, Shown(FileNode(Data(Resized(was, size)), perm)))
            case Shown(_) => r == Res(ov, IOError)
            case _ => r == Res(ov, NotExist)
  {
    if Live(ov, p) && ov.rows[p].NodeType().FileType? {
      RewrittenShows(ov, p, Resized(BackingContent(ov.files, ov.rows[p].backing).data, size));
    }
  }

  lemma SetModeShows(ov: Overlay, p: Path, mode: nat)
    requires Owned(ov)
    ensures var r := SetMode(ov, p, mode);
            match LayerAt(ov, p)
            case Shown(FileNode(content, _)) => Puts(ov, r.ov, p, Shown(FileNode(content, Perm(mode))))
            case Shown(node) => Puts(ov, r.ov, p, Shown(node))
            case _ => r == Res(ov, NotExist)
    ensures Live(ov, p) ==>
              var e, now := ov.rows[p], SetMode(ov, p, mode).ov.rows[p];
              Perm(now.mode) == Perm(mode) && now.mode / 512 == e.mode / 512 && now == e.(mode := now.mode)
  {
  }

  // ---------- Row renames ----------

  /** A row moved to `newPath`; the old path is whited out or falls through to the base. */
  ghost predicate MovesRow(before: Overlay, after: Overlay, oldPath: Path, newPath: Path, whiteout: bool) {
    && Owned(after)
    && LayerAt(after, newPath) == LayerAt(before, oldPath)
    && LayerAt(after, oldPath) == (if whiteout then Hidden else Clear)
    && forall q :: q != oldPath && q != newPath ==> LayerAt(after, q) == LayerAt(before, q)
  }

  /** What a moved row and its whiteout must be like. */
  ghost predicate Movable(ov: Overlay, oldPath: Path, newPath: Path, e: Entry, whiteout: Option<Entry>) {
    && Owned(ov) && Live(ov, oldPath) && oldPath != newPath
    && e.backing == ov.rows[oldPath].backing && RowOwned(e, ov.files) && !e.IsDeleted()
    && RowShows(e, ov.files) == RowShows(ov.rows[oldPath], ov.files)
    && (whiteout.Some? ==> whiteout.value.IsDeleted() && RowOwned(whiteout.value, ov.files))
  }

  /** The rows that stay keep their backing objects: the replaced one was nobody else's. */
  lemma OthersSurviveMove(ov: Overlay, oldPath: Path, newPath: Path, e: Entry, whiteout: Option<Entry>, p: Path)
    requires Movable(ov, oldPath, newPath, e, whiteout) && p in ov.rows && p != oldPath && p != newPath
    ensures var after := MoveRow(ov, oldPath, newPath, e, whiteout);
            && p in after.rows && after.rows[p] == ov.rows[p]
            && RowOwned(ov.rows[p], after.files) && RowShows(ov.rows[p], after.files) == RowShows(ov.rows[p], ov.files)
  {
    assert RowOwned(ov.rows[p], ov.files);
  }

  lemma MovedRowSurvives(ov: Overlay, oldPath: Path, newPath: Path, e: Entry, whiteout: Option<Entry>)
    requires Movable(ov, oldPath, newPath, e, whiteout)
    ensures var after := MoveRow(ov, oldPath, newPath, e, whiteout);
            && newPath in after.rows && after.rows[newPath] == e
            && RowOwned(e, after.files) && RowShows(e, after.files) == RowShows(e, ov.files)
            && (if whiteout.Some? then oldPath in after.rows && after.rows[oldPath] == whiteout.value
               else oldPath !in after.rows)
  {
  }

  lemma MoveRowMoves(ov: Overlay, oldPath: Path, newPath: Path, e: Entry, whiteout: Option<Entry>)
    requires Movable(ov, oldPath, newPath, e, whiteout)
    ensures MovesRow(ov, MoveRow(ov, oldPath, newPath, e, whiteout), oldPath, newPath, whiteout.Some?)
  {
    var after := MoveRow(ov, oldPath, newPath, e, whiteout);
    MovedRowSurvives(ov, oldPath, newPath, e, whiteout);
    forall p | p != oldPath && p != newPath ensures SameRow(ov, after, p) {
      if p in ov.rows { OthersSurviveMove(ov, oldPath, newPath, e, whiteout, p); }
    }
    SurvivorsMakeMove(ov, after, oldPath, newPath, e, whiteout);
  }

  /** The row at `p`, if any, is what it was, in good order, and shows what it showed. */
  ghost predicate SameRow(before: Overlay, after: Overlay, p: Path) {
    && (p in after.rows <==> p in before.rows)
    && (p in before.rows ==>
          && after.rows[p] == before.rows[p] && RowOwned(before.rows[p], after.files)
          && RowShows(before.rows[p], after.files) == RowShows(before.rows[p], before.files))
  }

  lemma SurvivorsMakeMove(ov: Overlay, after: Overlay, oldPath: Path, newPath: Path, e: Entry, whiteout: Option<Entry>)
    requires Movable(ov, oldPath, newPath, e, whiteout) && after.next == ov.next && after.files.Keys <= ov.files.Keys
    requires newPath in after.rows && after.rows[newPath] == e
    requires RowOwned(e, after.files) && RowShows(e, after.files) == RowShows(e, ov.files)
    requires if whiteout.Some? then oldPath in after.rows && after.rows[oldPath] == whiteout.value
        else oldPath !in after.rows
    requires forall p :: p != oldPath && p != newPath ==> SameRow(ov, after, p)
    ensures MovesRow(ov, after, oldPath, newPath, whiteout.Some?)
  {
    forall q | q != oldPath && q != newPath
      ensures LayerAt(after, q) == LayerAt(ov, q)
    {
      assert SameRow(ov, after, q);
    }
    forall q | q in after.rows && q != oldPath && q != newPath
      ensures q in ov.rows && after.rows[q] == ov.rows[q] && RowOwned(after.rows[q], after.files)
    {
      assert SameRow(ov, after, q);
    }
  }

  lemma RenameRowMoves(ov: Overlay, oldPath: Path, newPath: Path)
    requires Owned(ov) && Live(ov, oldPath) && oldPath != newPath && !ov.rows[oldPath].kind.Mkdir?
    ensures RenameRow(ov, oldPath, newPath).err == OK
    ensures MovesRow(ov, RenameRow(ov, oldPath, newPath).ov, oldPath, newPath, !LeavesNoWhiteout(ov.rows[oldPath]))
  {
    var e := ov.rows[oldPath];
    var whiteout := if LeavesNoWhiteout(e) then None else Some(RenameWhiteout(e, oldPath));
    MoveRowMoves(ov, oldPath, newPath, RenamedRow(e, oldPath), whiteout);
  }

  lemma RenameOntoBaseMoves(ov: Overlay, oldPath: Path, newPath: Path, oid: Oid, mode: nat)
    requires Owned(ov) && Live(ov, oldPath) && oldPath != newPath && !ov.rows[oldPath].kind.Mkdir?
    ensures RenameOntoBase(ov, oldPath, newPath, oid, mode).err == OK
    ensures var e := ov.rows[oldPath];
            MovesRow(ov, RenameOntoBase(ov, oldPath, newPath, oid, mode).ov, oldPath, newPath,
                     e.kind.Symlink? && !e.sourceOid.NoOid?)
  {
    var e := ov.rows[oldPath];
    var marked := e.(kind := if e.kind.Symlink? then Symlink else Modify, sourceOid := oid, sourceMode := mode);
    var whiteout := if e.kind.Symlink? && !e.sourceOid.NoOid? then Some(Whiteout(NoTarget)) else None;
    MoveRowMoves(ov, oldPath, newPath, marked, whiteout);
  }

  // ---------- Tree renames ----------

  /** What a successful tree rename makes of every layer. */
  ghost predicate MovesTree(before: Overlay, after: Overlay, oldPath: Path, newPath: Path,
      sourceBase: set<Path>, destBase: set<Path>) {
    && (forall q :: Under(q, newPath) ==>
          var was := LayerAt(before, Rebase(q, newPath, oldPath));
          LayerAt(after, q) ==
            if was.Shown? then was else if StrictlyUnder(q, newPath) && q in destBase then Hidden else Clear)
    && (forall q :: Under(q, oldPath) ==> LayerAt(after, q) == if q in sourceBase then Hidden else Clear)
    && (forall q :: !Under(q, oldPath) && !Under(q, newPath) ==> LayerAt(after, q) == LayerAt(before, q))
  }

  /** A successful tree rename works on two trees that do not overlap. */
  lemma TreeMoveApart(ov: Overlay, oldPath: Path, newPath: Path)
    requires oldPath != newPath && TreeMoveError(ov, oldPath, newPath) == OK
    ensures Apart(oldPath, newPath)
  {
    assert Under(oldPath, newPath) ==> oldPath in LiveUnder(ov, newPath);
  }

  lemma TreeRowAt(ov: Overlay, oldPath: Path, newPath: Path, sourceBase: set<Path>, destBase: set<Path>, q: Path)
    requires Apart(oldPath, newPath)
    ensures var rows := TreeRows(ov, oldPath, newPath, sourceBase, destBase);
            if Under(q, newPath) then
              var p := Rebase(q, newPath, oldPath);
              if Live(ov, p) then q in rows && rows[q] == CarriedRow(ov.rows[p], p, p in sourceBase)
              else if StrictlyUnder(q, newPath) && q in destBase then q in rows && rows[q] == Whiteout(Origin(q))
              else q !in rows
            else if Under(q, oldPath) then
              if q in sourceBase then q in rows && rows[q] == Whiteout(Origin(q)) else q !in rows
            else if q in ov.rows then q in rows && rows[q] == ov.rows[q]
            else q !in rows
  {
    CarriedPathsAre(ov, oldPath, newPath, q);
    if Under(q, newPath) && Under(q, oldPath) { SharedPathNests(q, oldPath, newPath); }
  }

  ghost predicate LayerAfterTreeMove(before: Overlay, after: Overlay, oldPath: Path, newPath: Path,
      sourceBase: set<Path>, destBase: set<Path>, q: Path) {
    LayerAt(after, q) ==
      if Under(q, newPath) then
        var was := LayerAt(before, Rebase(q, newPath, oldPath));
        if was.Shown? then was else if StrictlyUnder(q, newPath) && q in destBase then Hidden else Clear
      else if Under(q, oldPath) then if q in sourceBase then Hidden else Clear
      else LayerAt(before, q)
  }

  /** The path a surviving row stood at before the move. */
  function SourceOf(q: Path, oldPath: Path, newPath: Path): Path {
    if Under(q, newPath) then Rebase(q, newPath, oldPath) else q
  }

  /** The backing object of a surviving row is the one its source row named, untouched. */
  ghost predicate CarriesBacking(ov: Overlay, after: Overlay, oldPath: Path, newPath: Path, q: Path) {
    q in after.rows && after.rows[q].backing.Some? ==>
      var p := SourceOf(q, oldPath, newPath);
      && p in ov.rows && after.rows[q].backing == ov.rows[p].backing
      && ov.rows[p].backing.value in ov.files
      && ov.rows[p].backing.value in after.files
      && after.files[ov.rows[p].backing.value] == ov.files[ov.rows[p].backing.value]
      && (Under(q, newPath) || !Under(q, oldPath))
  }

  lemma TreeKeepsFiles(ov: Overlay, oldPath: Path, newPath: Path, sourceBase: set<Path>, destBase: set<Path>, q: Path)
    requires Owned(ov) && oldPath != newPath && TreeMoveError(ov, oldPath, newPath) == OK
    ensures CarriesBacking(ov, RenameTree(ov, oldPath, newPath, sourceBase, destBase).ov, oldPath, newPath, q)
  {
    TreeMoveApart(ov, oldPath, newPath);
    TreeRowAt(ov, oldPath, newPath, sourceBase, destBase, q);
    var after := RenameTree(ov, oldPath, newPath, sourceBase, destBase).ov;
    if q in after.rows && after.rows[q].backing.Some? {
      var p := SourceOf(q, oldPath, newPath);
      var id := ov.rows[p].backing.value;
      assert RowOwned(ov.rows[p], ov.files);
      if Under(q, newPath) {
        RebaseBack(q, newPath, oldPath);
        assert p in LiveUnder(ov, oldPath);
        assert id in LiveBackingsUnder(ov, oldPath);
      } else {
        OthersKeepBackings(ov, newPath, p);
      }
    }
  }

  lemma OthersKeepBackings(ov: Overlay, root: Path, p: Path)
    requires Owned(ov) && p in ov.rows && !Under(p, root) && ov.rows[p].backing.Some?
    ensures ov.rows[p].backing.value !in BackingsUnder(ov, root)
  {
  }

  lemma CarriedShows(e: Entry, was: map<BackingId, Backing>, now: map<BackingId, Backing>, source: Path, tracked: bool)
    requires !e.IsDeleted() && RowOwned(e, was)
    requires e.backing.Some? ==> e.backing.value in now && now[e.backing.value] == was[e.backing.value]
    ensures !CarriedRow(e, source, tracked).IsDeleted()
    ensures RowShows(CarriedRow(e, source, tracked), now) == RowShows(e, was)
    ensures RowOwned(CarriedRow(e, source, tracked), now)
  {
  }

  lemma TreeLayer(ov: Overlay, oldPath: Path, newPath: Path, sourceBase: set<Path>, destBase: set<Path>, q: Path)
    requires Owned(ov) && oldPath != newPath && TreeMoveError(ov, oldPath, newPath) == OK
    ensures LayerAfterTreeMove(ov, RenameTree(ov, oldPath, newPath, sourceBase, destBase).ov, oldPath, newPath,
        sourceBase, destBase, q)
  {
    TreeMoveApart(ov, oldPath, newPath);
    TreeKeepsFiles(ov, oldPath, newPath, sourceBase, destBase, q);
    var after := RenameTree(ov, oldPath, newPath, sourceBase, destBase).ov;
    assert after.rows == TreeRows(ov, oldPath, newPath, sourceBase, destBase);
    LayerFromRow(ov, after, oldPath, newPath, sourceBase, destBase, q);
  }

  lemma LayerFromRow(ov: Overlay, after: Overlay, oldPath: Path, newPath: Path,
      sourceBase: set<Path>, destBase: set<Path>, q: Path)
    requires Owned(ov) && Apart(oldPath, newPath)
    requires after.rows == TreeRows(ov, oldPath, newPath, sourceBase, destBase)
    requires CarriesBacking(ov, after, oldPath, newPath, q)
    ensures LayerAfterTreeMove(ov, after, oldPath, newPath, sourceBase, destBase, q)
  {
    TreeRowAt(ov, oldPath, newPath, sourceBase, destBase, q);
    var p := SourceOf(q, oldPath, newPath);
    if Under(q, newPath) && Live(ov, p) {
      CarriedShows(ov.rows[p], ov.files, after.files, p, p in sourceBase);
    }
  }

  lemma TreeRowOwned(ov: Overlay, oldPath: Path, newPath: Path, sourceBase: set<Path>, destBase: set<Path>, q: Path)
    requires Owned(ov) && oldPath != newPath && TreeMoveError(ov, oldPath, newPath) == OK
    ensures var after := RenameTree(ov, oldPath, newPath, sourceBase, destBase).ov;
            q in after.rows ==> RowOwned(after.rows[q], after.files)
  {
    TreeMoveApart(ov, oldPath, newPath);
    TreeRowAt(ov, oldPath, newPath, sourceBase, destBase, q);
    TreeKeepsFiles(ov, oldPath, newPath, sourceBase, destBase, q);
    var p := SourceOf(q, oldPath, newPath);
    assert p in ov.rows ==> RowOwned(ov.rows[p], ov.files);
  }

  /** A tree rename shows the moved tree at its new place, hides what the base held, keeps ownership. */
  lemma TreeMoves(ov: Overlay, oldPath: Path, newPath: Path, sourceBase: set<Path>, destBase: set<Path>)
    requires Owned(ov) && oldPath != newPath && TreeMoveError(ov, oldPath, newPath) == OK
    ensures RenameTree(ov, oldPath, newPath, sourceBase, destBase).err == OK
    ensures MovesTree(ov, RenameTree(ov, oldPath, newPath, sourceBase, destBase).ov, oldPath, newPath, sourceBase,
        destBase)
    ensures Owned(RenameTree(ov, oldPath, newPath, sourceBase, destBase).ov)
    ensures Apart(oldPath, newPath)
  {
    TreeMoveApart(ov, oldPath, newPath);
    var after := RenameTree(ov, oldPath, newPath, sourceBase, destBase).ov;
    forall q
      ensures LayerAfterTreeMove(ov, after, oldPath, newPath, sourceBase, destBase, q)
      ensures CarriesBacking(ov, after, oldPath, newPath, q)
      ensures q in after.rows ==> RowOwned(after.rows[q], after.files)
    {
      TreeLayer(ov, oldPath, newPath, sourceBase, destBase, q);
      TreeKeepsFiles(ov, oldPath, newPath, sourceBase, destBase, q);
      TreeRowOwned(ov, oldPath, newPath, sourceBase, destBase, q);
    }
    LayersMakeTreeMove(ov, after, oldPath, newPath, sourceBase, destBase);
    CarriedStaysOwned(ov, after, oldPath, newPath);
  }

  lemma LayersMakeTreeMove(ov: Overlay, after: Overlay, oldPath: Path, newPath: Path,
      sourceBase: set<Path>, destBase: set<Path>)
    requires Apart(oldPath, newPath)
    requires forall q :: LayerAfterTreeMove(ov, after, oldPath, newPath, sourceBase, destBase, q)
    ensures MovesTree(ov, after, oldPath, newPath, sourceBase, destBase)
  {
    forall q
      ensures Under(q, oldPath) ==> !Under(q, newPath)
      ensures LayerAfterTreeMove(ov, after, oldPath, newPath, sourceBase, destBase, q)
    {
      if Under(q, oldPath) && Under(q, newPath) { SharedPathNests(q, oldPath, newPath); }
    }
  }

  lemma CarriedStaysOwned(ov: Overlay, after: Overlay, oldPath: Path, newPath: Path)
    requires Owned(ov) && after.next == ov.next && after.files.Keys <= ov.files.Keys
    requires forall q :: CarriesBacking(ov, after, oldPath, newPath, q)
    requires forall q :: q in after.rows ==> RowOwned(after.rows[q], after.files)
    ensures Owned(after)
  {
    forall q, r | q in after.rows && r in after.rows && q != r && after.rows[q].backing.Some?
      ensures after.rows[q].backing != after.rows[r].backing
    {
      assert CarriesBacking(ov, after, oldPath, newPath, q) && CarriesBacking(ov, after, oldPath, newPath, r);
      if after.rows[r].backing.Some? { SourcesDiffer(q, r, oldPath, newPath); }
    }
  }

  lemma SourcesDiffer(q: Path, r: Path, oldPath: Path, newPath: Path)
    requires q != r
    requires Under(q, newPath) || !Under(q, oldPath)
    requires Under(r, newPath) || !Under(r, oldPath)
    ensures SourceOf(q, oldPath, newPath) != SourceOf(r, oldPath, newPath)
  {
    if Under(q, newPath) { RebaseBack(q, newPath, oldPath); }
    if Under(r, newPath) { RebaseBack(r, newPath, oldPath); }
  }
}
