/**
 * Open file handles across unlink and rename, which run alone: handles on the path are pinned to
 * its backing file, handles on what disappears are detached, the others move along.  What a
 * handle reads afterwards.  Reads and writes that run beside each other are HandleCache's matter.
 */
module OpenFiles {
  import opened Paths
  import opened Model
  import opened Overlays
  import opened OverlayEffects
  import opened Reconciles
  import opened OverlayRuns
  import opened RenameViews

  type HandleId = nat

  /** cacheFile and cacheGeneration: none, a base file of a generation, or a backing file (-1). */
  datatype Cached = NoFile | BaseFile(gen: nat, data: Bytes) | BackingFile(id: BackingId)

  datatype OpenFile = OpenFile(path: Path, cache: Cached, detached: bool)

  /** What descriptors can see: the attic holds removed backing objects, which they keep alive. */
  datatype World = World(ov: Overlay, base: Base, gen: nat, attic: map<BackingId, Backing>)

  ghost predicate Tidy(w: World) {
    Owned(w.ov) && forall id :: id in w.attic ==> id !in w.ov.files && id < w.ov.next
  }

  // ---------- What a read returns ----------

  function FileAt(w: World, id: BackingId): Content {
    BackingContent(if id in w.ov.files then w.ov.files else w.attic, Some(id))
  }

  function FileOf(shows: Option<Node>): Option<Content> {
    match shows
    case Some(FileNode(content, _)) => Some(content)
    case _ => None
  }

  /** What a reader of the path gets: nothing unless it shows a file. */
  function PathReads(w: World, p: Path): Option<Content> {
    FileOf(Resolve(w.ov, w.base, p))
  }

  /** FileHandle.read: the cached file if there is one that may be used, else whatever the path shows. */
  function Reads(w: World, h: OpenFile): Option<Content> {
    match h.cache
    case BackingFile(id) => Some(FileAt(w, id))
    case BaseFile(gen, data) => if h.detached || gen == w.gen then Some(Data(data)) else PathReads(w, h.path)
    case NoFile => PathReads(w, h.path)
  }

  predicate Current(w: World, h: OpenFile) {
    Reads(w, h) == PathReads(w, h.path)
  }

  predicate Known(w: World, id: BackingId) {
    id in w.ov.files || id in w.attic
  }

  // ---------- Steps of the store ----------

  /** The store is at `after`; backing objects it has removed go to the attic. */
  function Moved(w: World, after: Overlay): World {
    w.(ov := after, attic := w.attic + (map id | id in w.ov.files && id !in after.files :: w.ov.files[id]))
  }

  function StepTo(w: World, op: StoreOp): World {
    var moved := Moved(w, Apply(w.ov, op));
    if op.DoReconcile? then moved.(base := op.base, gen := w.gen + 1) else moved
  }

  function RunTo(w: World, ops: seq<StoreOp>): World
    decreases |ops|
  {
    if ops == [] then w else RunTo(StepTo(w, ops[0]), ops[1..])
  }

  /** The operation writes the backing file in place. */
  predicate Rewrites(ov: Overlay, op: StoreOp, id: BackingId) {
    (op.DoWrite? || op.DoTruncate?) && RowBacking(ov, op.p) == Some(id)
  }

  /** An operation keeps the bytes of every backing file it does not remove or rewrite, and reuses no name. */
  ghost predicate FilesStay(before: Overlay, after: Overlay, id: BackingId) {
    && before.next <= after.next
    && (id in after.files ==> id in before.files && after.files[id] == before.files[id])
  }

  lemma RenameFilesStay(ov: Overlay, op: StoreOp, id: BackingId)
    requires op.DoRename? || op.DoRenameOntoBase? || op.DoRenameTree?
    ensures FilesStay(ov, Apply(ov, op), id)
  {
  }

  lemma ApplyFilesStay(ov: Overlay, op: StoreOp, id: BackingId)
    requires id < ov.next && !Rewrites(ov, op, id)
    ensures FilesStay(ov, Apply(ov, op), id)
  {
    match op
    case DoRename(_, _) => RenameFilesStay(ov, op, id);
    case DoRenameOntoBase(_, _, _, _) => RenameFilesStay(ov, op, id);
    case DoRenameTree(_, _, _, _) => RenameFilesStay(ov, op, id);
    case _ =>
  }

  /** So a descriptor reads on what it read, wherever the file's row has gone. */
  lemma StepKeepsFile(w: World, op: StoreOp, id: BackingId)
    requires Tidy(w) && Known(w, id) && Callable(w.ov, op) && !Rewrites(w.ov, op, id)
    ensures Known(StepTo(w, op), id) && FileAt(StepTo(w, op), id) == FileAt(w, id)
  {
    ApplyFilesStay(w.ov, op, id);
  }

  lemma RemovedIsUnnamed(ov: Overlay, id: BackingId)
    requires Owned(ov) && id !in ov.files
    ensures Unnamed(ov, id)
  {
    forall p | p in ov.rows ensures ov.rows[p].backing != Some(id) { assert RowOwned(ov.rows[p], ov.files); }
  }

  /** No operation gives a row a file that it was not made with. */
  lemma UnnamedStays(ov: Overlay, op: StoreOp, id: BackingId)
    requires id < ov.next && Unnamed(ov, id)
    ensures Unnamed(Apply(ov, op), id) && ov.next <= Apply(ov, op).next
  {
    match op
    case DoRename(oldPath, newPath) => RenamedRowsStayUnnamed(ov, oldPath, newPath, {}, {}, id);
    case DoRenameTree(oldPath, newPath, sourceBase, destBase) =>
      RenamedRowsStayUnnamed(ov, oldPath, newPath, sourceBase, destBase, id);
    case DoReconcile(base) => ReconciledRowsStayUnnamed(ov, base, id);
    case _ =>
  }

  lemma RenamedRowsStayUnnamed(ov: Overlay, oldPath: Path, newPath: Path,
      sourceBase: set<Path>, destBase: set<Path>, id: BackingId)
    requires Unnamed(ov, id)
    ensures Unnamed(RenameTree(ov, oldPath, newPath, sourceBase, destBase).ov, id)
  {
    var moved := MovedRows(ov, oldPath, newPath, sourceBase);
    forall q | q in moved ensures moved[q].backing != Some(id) {
      assert moved[q].backing == ov.rows[Rebase(q, newPath, oldPath)].backing;
    }
  }

  lemma ReconciledRowsStayUnnamed(ov: Overlay, base: Base, id: BackingId)
    requires Unnamed(ov, id)
    ensures Unnamed(Reconcile(ov, base), id)
  {
    forall p | p in Reconcile(ov, base).rows
      ensures Reconcile(ov, base).rows[p].backing == ov.rows[p].backing
    {
    }
  }

  lemma StepKeepsTidy(w: World, op: StoreOp)
    requires Tidy(w) && Callable(w.ov, op)
    ensures Tidy(StepTo(w, op))
  {
    ApplyKeepsOwned(w.ov, op);
    var after := Apply(w.ov, op);
    forall id | id in StepTo(w, op).attic
      ensures id !in after.files && id < after.next
    {
      if id in w.attic {
        RemovedIsUnnamed(w.ov, id);
        ApplyFilesStay(w.ov, op, id);
      } else {
        NamesAdvance(w.ov, op);
      }
    }
  }

  lemma NamesAdvance(ov: Overlay, op: StoreOp)
    ensures ov.next <= Apply(ov, op).next
  {
  }

  // ---------- Pinning, detaching, moving ----------

  /** pinOpenHandles: a handle on the path gets its backing file, unless it has one already. */
  function Pinned(h: OpenFile, ov: Overlay, path: Path): OpenFile {
    if h.path == path && Live(ov, path) && ov.rows[path].backing.Some? && !h.cache.BackingFile?
    then h.(cache := BackingFile(ov.rows[path].backing.value)) else h
  }

  /** detachOpenHandles */
  function Detached(h: OpenFile, path: Path): OpenFile {
    if Under(h.path, path) then h.(detached := true) else h
  }

  /** moveOpenHandles */
  function Rehomed(h: OpenFile, oldPath: Path, newPath: Path): OpenFile {
    if Under(h.path, oldPath) then h.(path := Rebase(h.path, oldPath, newPath)) else h
  }

  /** A handle after an unlink of `path`; pinning sees the overlay before the row goes. */
  function AfterUnlink(h: OpenFile, ov: Overlay, path: Path): OpenFile {
    Detached(Pinned(h, ov, path), path)
  }

  /** A handle after a rename; both ends of a file rename are pinned before the rows move. */
  function AfterRename(h: OpenFile, ov: Overlay, oldPath: Path, newPath: Path, isDir: bool): OpenFile {
    var pinned := if isDir then h else Pinned(Pinned(h, ov, oldPath), ov, newPath);
    Rehomed(Detached(pinned, newPath), oldPath, newPath)
  }

  /** Handles at or below what disappears are detached, and no others. */
  lemma DetachedIff(h: OpenFile, ov: Overlay, oldPath: Path, newPath: Path, isDir: bool)
    ensures AfterUnlink(h, ov, newPath).detached <==> h.detached || Under(h.path, newPath)
    ensures AfterRename(h, ov, oldPath, newPath, isDir).detached <==> h.detached || Under(h.path, newPath)
  {
  }

  /** A live file row, as copy-up has given it to what is unlinked or renamed. */
  predicate FileRow(ov: Overlay, p: Path) {
    Live(ov, p) && ov.rows[p].NodeType().FileType?
  }

  /** A pinned handle reads what the path shows, unless it keeps a backing file of its own. */
  lemma PinnedReads(w: World, h: OpenFile)
    requires Tidy(w) && FileRow(w.ov, h.path)
    ensures var pinned := Pinned(h, w.ov, h.path);
            && pinned.cache.BackingFile? && pinned.path == h.path && pinned.detached == h.detached
            && Reads(w, pinned) == (if h.cache.BackingFile? then Reads(w, h) else PathReads(w, h.path))
            && (!h.cache.BackingFile? ==> Known(w, pinned.cache.id))
  {
    assert RowOwned(w.ov.rows[h.path], w.ov.files);
  }

  /** The handle's own backing file, if it has one, is there. */
  ghost predicate Sound(w: World, h: OpenFile) {
    h.cache.BackingFile? ==> Known(w, h.cache.id)
  }

  /**
   * Unlink: the path shows nothing, and an open handle reads what the path showed if and only if
   * it did not keep some other file, that of a row a switch has dropped.
   */
  lemma UnlinkedReadsIff(w: World, h: OpenFile)
    requires Tidy(w) && Sound(w, h) && FileRow(w.ov, h.path)
    ensures var after, still := StepTo(w, DoRemove(h.path)), AfterUnlink(h, w.ov, h.path);
            && PathReads(after, h.path) == None && still.detached && Sound(after, still) && Tidy(after)
            && (Reads(after, still) == PathReads(w, h.path) <==> (h.cache.BackingFile? ==> Current(w, h)))
  {
    var op, still := DoRemove(h.path), AfterUnlink(h, w.ov, h.path);
    PinnedReads(w, h);
    StepKeepsFile(w, op, still.cache.id);
    StepKeepsTidy(w, op);
    RemoveHides(w.ov, h.path);
  }

  /** What a detached handle keeps, if anything, is no row's file any more. */
  ghost predicate KeepsOwn(w: World, h: OpenFile) {
    h.detached && !h.cache.NoFile? && (h.cache.BackingFile? ==> Known(w, h.cache.id) && Unnamed(w.ov, h.cache.id))
  }

  /** Then it reads on what it read, whatever happens to the tree, generation switches included. */
  lemma {:induction false} DetachedKeepsReading(w: World, h: OpenFile, ops: seq<StoreOp>)
    requires Tidy(w) && AllCallable(w.ov, ops) && KeepsOwn(w, h)
    ensures Reads(RunTo(w, ops), h) == Reads(w, h)
    decreases |ops|
  {
    if ops != [] {
      StepKeepsTidy(w, ops[0]);
      if h.cache.BackingFile? {
        StepKeepsFile(w, ops[0], h.cache.id);
        UnnamedStays(w.ov, ops[0], h.cache.id);
      }
      DetachedKeepsReading(StepTo(w, ops[0]), h, ops[1..]);
    }
  }

  /** No other path's row names the handle's backing file. */
  ghost predicate OwnFile(w: World, h: OpenFile) {
    h.cache.BackingFile? ==> Unnamed(w.ov.(rows := w.ov.rows - {h.path}), h.cache.id)
  }

  lemma PinnedOwnsFile(w: World, h: OpenFile)
    requires Tidy(w) && OwnFile(w, h) && FileRow(w.ov, h.path)
    ensures OwnFile(w, Pinned(h, w.ov, h.path))
  {
    assert RowOwned(w.ov.rows[h.path], w.ov.files);
  }

  /** The operations the two row renames are. */
  predicate IsLeafRename(op: StoreOp, oldPath: Path, newPath: Path) {
    && (op.DoRename? || op.DoRenameOntoBase?)
    && op.oldPath == oldPath && op.newPath == newPath
  }

  lemma LeafRenameMovesReads(w: World, op: StoreOp, oldPath: Path, newPath: Path)
    requires Tidy(w) && FileRow(w.ov, oldPath) && oldPath != newPath && IsLeafRename(op, oldPath, newPath)
    ensures Callable(w.ov, op) && PathReads(StepTo(w, op), newPath) == PathReads(w, oldPath)
  {
    if op.DoRename? {
      RenameRowMoves(w.ov, oldPath, newPath);
    } else {
      RenameOntoBaseMoves(w.ov, oldPath, newPath, op.oid, op.mode);
    }
  }

  /** A handle on a renamed file follows it: it reads what the new path shows if and only if it kept no other file. */
  lemma RenamedReadsIff(w: World, op: StoreOp, h: OpenFile, newPath: Path)
    requires Tidy(w) && Sound(w, h) && FileRow(w.ov, h.path) && !Under(h.path, newPath) && !h.detached
    requires IsLeafRename(op, h.path, newPath)
    ensures var after, moved := StepTo(w, op), AfterRename(h, w.ov, h.path, newPath, false);
            && moved.path == newPath && !moved.detached && Sound(after, moved) && Tidy(after)
            && (Current(after, moved) <==> (h.cache.BackingFile? ==> Current(w, h)))
  {
    PinnedReads(w, h);
    LeafRenameMovesReads(w, op, h.path, newPath);
    var pinned := Pinned(h, w.ov, h.path);
    assert Pinned(pinned, w.ov, newPath) == pinned;
    assert Rebase(h.path, h.path, newPath) == newPath;
    StepKeepsFile(w, op, pinned.cache.id);
    StepKeepsTidy(w, op);
  }

  /** A handle on a replaced file is detached and reads what the path showed before, under the same condition. */
  lemma ReplacedReadsIff(w: World, op: StoreOp, h: OpenFile, oldPath: Path)
    requires Tidy(w) && Sound(w, h) && FileRow(w.ov, oldPath) && FileRow(w.ov, h.path) && !Under(h.path, oldPath)
    requires IsLeafRename(op, oldPath, h.path)
    ensures var after, still := StepTo(w, op), AfterRename(h, w.ov, oldPath, h.path, false);
            && still.detached && still.path == h.path && Sound(after, still) && Tidy(after)
            && PathReads(after, h.path) == PathReads(w, oldPath)
            && (Reads(after, still) == PathReads(w, h.path) <==> (h.cache.BackingFile? ==> Current(w, h)))
  {
    PinnedReads(w, h);
    LeafRenameMovesReads(w, op, oldPath, h.path);
    assert Pinned(h, w.ov, oldPath) == h;
    StepKeepsFile(w, op, Pinned(h, w.ov, h.path).cache.id);
    StepKeepsTidy(w, op);
  }

  /** So an open file stays readable after its unlink, for good ... */
  lemma UnlinkedReadsForGood(w: World, h: OpenFile, ops: seq<StoreOp>)
    requires Tidy(w) && Sound(w, h) && OwnFile(w, h) && FileRow(w.ov, h.path)
    requires AllCallable(Apply(w.ov, DoRemove(h.path)), ops)
    ensures var after, still := StepTo(w, DoRemove(h.path)), AfterUnlink(h, w.ov, h.path);
            Reads(RunTo(after, ops), still) == Reads(after, still)
  {
    var after, still := StepTo(w, DoRemove(h.path)), AfterUnlink(h, w.ov, h.path);
    UnlinkedReadsIff(w, h);
    PinnedReads(w, h);
    PinnedOwnsFile(w, h);
    RemoveUnnames(w.ov, h.path, still.cache.id);
    DetachedKeepsReading(after, still, ops);
  }

  lemma RemoveUnnames(ov: Overlay, path: Path, id: BackingId)
    requires Unnamed(ov.(rows := ov.rows - {path}), id)
    ensures Unnamed(Remove(ov, path).ov, id)
  {
    forall p | p in Remove(ov, path).ov.rows
      ensures Remove(ov, path).ov.rows[p].backing != Some(id)
    {
      if p != path { assert p in ov.rows - {path}; }
    }
  }

  /** ... and so does one whose file a rename has replaced. */
  lemma ReplacedReadsForGood(w: World, op: StoreOp, h: OpenFile, oldPath: Path, ops: seq<StoreOp>)
    requires Tidy(w) && Sound(w, h) && OwnFile(w, h)
    requires FileRow(w.ov, oldPath) && FileRow(w.ov, h.path) && !Under(h.path, oldPath)
    requires IsLeafRename(op, oldPath, h.path) && AllCallable(Apply(w.ov, op), ops)
    ensures var after, still := StepTo(w, op), AfterRename(h, w.ov, oldPath, h.path, false);
            Reads(RunTo(after, ops), still) == Reads(after, still)
  {
    var after, still := StepTo(w, op), AfterRename(h, w.ov, oldPath, h.path, false);
    ReplacedReadsIff(w, op, h, oldPath);
    PinnedReads(w, h);
    PinnedOwnsFile(w, h);
    assert Pinned(h, w.ov, oldPath) == h && still.cache == Pinned(h, w.ov, h.path).cache;
    LeafRenameUnnames(w.ov, op, oldPath, h.path, still.cache.id);
    DetachedKeepsReading(after, still, ops);
  }

  lemma LeafRenameUnnames(ov: Overlay, op: StoreOp, oldPath: Path, newPath: Path, id: BackingId)
    requires Owned(ov) && FileRow(ov, oldPath) && oldPath != newPath && IsLeafRename(op, oldPath, newPath)
    requires Unnamed(ov.(rows := ov.rows - {newPath}), id)
    ensures Unnamed(Apply(ov, op), id)
  {
    var after := Apply(ov, op);
    assert oldPath in ov.rows - {newPath};
    forall p | p in after.rows
      ensures after.rows[p].backing != Some(id)
    {
      if p != oldPath && p != newPath { assert p in ov.rows - {newPath} && after.rows[p] == ov.rows[p]; }
    }
  }

  /** WriteFile on a detached handle: straight into its file; base files are open for reading only. */
  function DetachedWrite(w: World, h: OpenFile, off: nat, data: Bytes): (World, Error)
    requires h.detached
  {
    if !h.cache.BackingFile? then (w, IOError)
    else match FileAt(w, h.cache.id)
      case Unreadable => (w, IOError)
      case Data(was) =>
        var written := FileObj(Spliced(was, off, data));
        if h.cache.id in w.ov.files then (w.(ov := w.ov.(files := w.ov.files[h.cache.id := written])), OK)
        else (w.(attic := w.attic[h.cache.id := written]), OK)
  }

  /** It reads back what it wrote, and nobody else sees the write. */
  lemma DetachedWriteIsPrivate(w: World, h: OpenFile, off: nat, data: Bytes)
    requires Tidy(w) && KeepsOwn(w, h)
    ensures var (after, err) := DetachedWrite(w, h, off, data);
            && SameView(w.ov, after.ov, w.base) && after.base == w.base
            && (err == OK <==> h.cache.BackingFile? && FileAt(w, h.cache.id).Data?)
            && (err == OK ==> Reads(after, h) == Some(Data(Spliced(FileAt(w, h.cache.id).data, off, data))))
  {
    var (after, err) := DetachedWrite(w, h, off, data);
    forall p ensures LayerAt(after.ov, p) == LayerAt(w.ov, p) {
      assert p in w.ov.rows ==> RowOwned(w.ov.rows[p], w.ov.files);
    }
  }

  lemma TreeRenameMovesReads(w: World, op: StoreOp, p: Path)
    requires op.DoRenameTree? && Under(p, op.oldPath)
    requires TreeMoved(w.ov, Apply(w.ov, op), w.base, op.oldPath, op.newPath)
    ensures PathReads(StepTo(w, op), Rebase(p, op.oldPath, op.newPath)) == PathReads(w, p)
  {
    RebaseBack(p, op.oldPath, op.newPath);
  }

  /** Handles below a renamed directory move along and read what they read: that is what their new paths show. */
  lemma TreeHandlesMoveAlong(w: World, op: StoreOp, h: OpenFile)
    requires Tidy(w) && Sound(w, h) && op.DoRenameTree? && Under(h.path, op.oldPath) && !h.detached
    requires !Under(h.path, op.newPath)
    requires TreeMoved(w.ov, Apply(w.ov, op), w.base, op.oldPath, op.newPath)
    ensures var after, moved := StepTo(w, op), AfterRename(h, w.ov, op.oldPath, op.newPath, true);
            && moved.path == Rebase(h.path, op.oldPath, op.newPath) && !moved.detached && Sound(after, moved)
            && Reads(after, moved) == Reads(w, h) && (Current(after, moved) <==> Current(w, h))
  {
    var moved := AfterRename(h, w.ov, op.oldPath, op.newPath, true);
    assert moved == h.(path := Rebase(h.path, op.oldPath, op.newPath));
    TreeRenameMovesReads(w, op, h.path);
    assert Callable(w.ov, op) && StepTo(w, op).gen == w.gen;
    if h.cache.BackingFile? { StepKeepsFile(w, op, h.cache.id); }
  }

  // ---------- The handles in place ----------

  /** The open handles of a mount, with the loops that pin, detach and move them. */
  class OpenHandles {
    var handles: map<HandleId, OpenFile>

    constructor ()
      ensures handles == map[]
    {
      handles := map[];
    }

    method PinOpenHandles(ov: Overlay, path: Path)
      modifies this
      ensures handles == map h | h in old(handles) :: Pinned(old(handles)[h], ov, path)
    {
      if !Live(ov, path) || ov.rows[path].backing.None? { return; }
      var matches := set h | h in handles && handles[h].path == path;
      while matches != {}
        invariant handles.Keys == old(handles).Keys && matches <= handles.Keys
        invariant forall h :: h in matches ==> handles[h] == old(handles)[h] && handles[h].path == path
        invariant forall h :: h in handles && h !in matches ==> handles[h] == Pinned(old(handles)[h], ov, path)
        decreases matches
      {
        var h :| h in matches;
        if !handles[h].cache.BackingFile? {
          handles := handles[h := handles[h].(cache := BackingFile(ov.rows[path].backing.value))];
        }
        matches := matches - {h};
      }
    }

    method DetachOpenHandles(path: Path)
      modifies this
      ensures handles == map h | h in old(handles) :: Detached(old(handles)[h], path)
    {
      var matches := set h | h in handles && Under(handles[h].path, path);
      while matches != {}
        invariant handles.Keys == old(handles).Keys && matches <= handles.Keys
        invariant forall h :: h in matches ==> handles[h] == old(handles)[h] && Under(handles[h].path, path)
        invariant forall h :: h in handles && h !in matches ==> handles[h] == Detached(old(handles)[h], path)
        decreases matches
      {
        var h :| h in matches;
        handles := handles[h := handles[h].(detached := true)];
        matches := matches - {h};
      }
    }

    method MoveOpenHandles(oldPath: Path, newPath: Path)
      modifies this
      ensures handles == map h | h in old(handles) :: Rehomed(old(handles)[h], oldPath, newPath)
    {
      var matches := set h | h in handles && Under(handles[h].path, oldPath);
      while matches != {}
        invariant handles.Keys == old(handles).Keys && matches <= handles.Keys
        invariant forall h :: h in matches ==> handles[h] == old(handles)[h] && Under(handles[h].path, oldPath)
        invariant forall h :: h in handles && h !in matches ==> handles[h] == Rehomed(old(handles)[h], oldPath, newPath)
        decreases matches
      {
        var h :| h in matches;
        handles := handles[h := handles[h].(path := Rebase(handles[h].path, oldPath, newPath))];
        matches := matches - {h};
      }
    }

    /** What unlink does to them, around the removal of the row. */
    method Unlinked(ov: Overlay, path: Path)
      modifies this
      ensures handles == map h | h in old(handles) :: AfterUnlink(old(handles)[h], ov, path)
    {
      PinOpenHandles(ov, path);
      DetachOpenHandles(path);
    }

    /** And what rename does. */
    method Renamed(ov: Overlay, oldPath: Path, newPath: Path, isDir: bool)
      modifies this
      ensures handles == map h | h in old(handles) :: AfterRename(old(handles)[h], ov, oldPath, newPath, isDir)
    {
      if !isDir {
        PinOpenHandles(ov, oldPath);
        PinOpenHandles(ov, newPath);
      }
      DetachOpenHandles(newPath);
      MoveOpenHandles(oldPath, newPath);
    }
  }
}
