/** Runs of store operations: backing-file ownership holds after every one of them. */
module OverlayRuns {
  import opened Paths
  import opened Model
  import opened Overlays
  import opened OverlayEffects
  import opened Reconciles

  datatype StoreOp =
    | DoCreate(p: Path, mode: nat)
    | DoSymlink(p: Path, text: Bytes)
    | DoMkdir(p: Path, mode: nat)
    | DoCopyUp(p: Path, n: BaseNode, src: Option<Bytes>)
    | DoWrite(p: Path, off: nat, data: Bytes)
    | DoTruncate(p: Path, size: nat)
    | DoChmod(p: Path, mode: nat)
    | DoRemove(p: Path)
    | DoRename(oldPath: Path, newPath: Path)
    | DoRenameOntoBase(oldPath: Path, newPath: Path, oid: Oid, mode: nat)
    | DoRenameTree(oldPath: Path, newPath: Path, sourceBase: set<Path>, destBase: set<Path>)
    | DoReconcile(base: Base)

  function Apply(ov: Overlay, op: StoreOp): Overlay {
    match op
    case DoCreate(p, mode) => CreateFile(ov, p, mode).ov
    case DoSymlink(p, text) => CreateSymlink(ov, p, text).ov
    case DoMkdir(p, mode) => MakeDir(ov, p, mode).ov
    case DoCopyUp(p, n, src) => CopyUp(ov, p, n, src).ov
    case DoWrite(p, off, data) => WriteFile(ov, p, off, data).ov
    case DoTruncate(p, size) => Truncate(ov, p, size).ov
    case DoChmod(p, mode) => SetMode(ov, p, mode).ov
    case DoRemove(p) => Remove(ov, p).ov
    case DoRename(oldPath, newPath) => RenameRow(ov, oldPath, newPath).ov
    case DoRenameOntoBase(oldPath, newPath, oid, mode) => RenameOntoBase(ov, oldPath, newPath, oid, mode).ov
    case DoRenameTree(oldPath, newPath, sourceBase, destBase) =>
      RenameTree(ov, oldPath, newPath, sourceBase, destBase).ov
    case DoReconcile(base) => Reconcile(ov, base)
  }

  /** Callers mark creates and links as modified from the base, never directories. */
  predicate Callable(ov: Overlay, op: StoreOp) {
    op.DoRenameOntoBase? && op.oldPath in ov.rows ==> !ov.rows[op.oldPath].kind.Mkdir?
  }

  function Run(ov: Overlay, ops: seq<StoreOp>): Overlay
    decreases |ops|
  {
    if ops == [] then ov else Run(Apply(ov, ops[0]), ops[1..])
  }

  predicate AllCallable(ov: Overlay, ops: seq<StoreOp>)
    decreases |ops|
  {
    ops == [] || (Callable(ov, ops[0]) && AllCallable(Apply(ov, ops[0]), ops[1..]))
  }

  lemma RenameKeepsOwned(ov: Overlay, oldPath: Path, newPath: Path)
    requires Owned(ov)
    ensures Owned(RenameRow(ov, oldPath, newPath).ov)
  {
    if Live(ov, oldPath) && oldPath != newPath {
      if ov.rows[oldPath].kind.Mkdir? { RenameTreeKeepsOwned(ov, oldPath, newPath, {}, {}); }
      else { RenameRowMoves(ov, oldPath, newPath); }
    }
  }

  lemma RenameTreeKeepsOwned(ov: Overlay, oldPath: Path, newPath: Path, sourceBase: set<Path>, destBase: set<Path>)
    requires Owned(ov)
    ensures Owned(RenameTree(ov, oldPath, newPath, sourceBase, destBase).ov)
  {
    if oldPath != newPath && TreeMoveError(ov, oldPath, newPath) == OK {
      TreeMoves(ov, oldPath, newPath, sourceBase, destBase);
    }
  }

  lemma RenameOntoBaseKeepsOwned(ov: Overlay, oldPath: Path, newPath: Path, oid: Oid, mode: nat)
    requires Owned(ov) && Callable(ov, DoRenameOntoBase(oldPath, newPath, oid, mode))
    ensures Owned(RenameOntoBase(ov, oldPath, newPath, oid, mode).ov)
  {
    if Live(ov, oldPath) && oldPath != newPath { RenameOntoBaseMoves(ov, oldPath, newPath, oid, mode); }
  }

  lemma ApplyKeepsOwned(ov: Overlay, op: StoreOp)
    requires Owned(ov) && Callable(ov, op)
    ensures Owned(Apply(ov, op))
  {
    match op
    case DoCreate(p, mode) => CreateFileShows(ov, p, mode);
    case DoSymlink(p, text) => CreateSymlinkShows(ov, p, text);
    case DoMkdir(p, mode) => MkdirShows(ov, p, mode);
    case DoCopyUp(p, n, src) => CopyUpKeepsOwned(ov, p, n, src);
    case DoWrite(p, off, data) => WriteFileShows(ov, p, off, data);
    case DoTruncate(p, size) => TruncateShows(ov, p, size);
    case DoChmod(p, mode) => SetModeShows(ov, p, mode);
    case DoRemove(p) => RemoveHides(ov, p);
    case DoRename(oldPath, newPath) => RenameKeepsOwned(ov, oldPath, newPath);
    case DoRenameOntoBase(oldPath, newPath, oid, mode) => RenameOntoBaseKeepsOwned(ov, oldPath, newPath, oid, mode);
    case DoRenameTree(oldPath, newPath, sourceBase, destBase) =>
      RenameTreeKeepsOwned(ov, oldPath, newPath, sourceBase, destBase);
    case DoReconcile(base) => ReconcileKeepsOwned(ov, base);
  }

  /** Over every sequence of operations each live row owns its backing object, and only it. */
  lemma {:induction false} OwnershipOverRuns(ov: Overlay, ops: seq<StoreOp>)
    requires Owned(ov) && AllCallable(ov, ops)
    ensures Owned(Run(ov, ops))
    decreases |ops|
  {
    if ops != [] {
      ApplyKeepsOwned(ov, ops[0]);
      OwnershipOverRuns(Apply(ov, ops[0]), ops[1..]);
    }
  }

  /** No row names the file; then it is never rewritten. */
  ghost predicate Unnamed(ov: Overlay, id: BackingId) {
    forall p :: p in ov.rows ==> ov.rows[p].backing != Some(id)
  }

  /** Every backing object is some row's. */
  ghost predicate NothingLeaks(ov: Overlay) {
    forall id :: id in ov.files ==> !Unnamed(ov, id)
  }

  /** What replaces a row without removing its backing object. */
  predicate MakesOver(ov: Overlay, op: StoreOp) {
    match op
    case DoCreate(p, _) => RowBacking(ov, p).Some?
    case DoSymlink(p, text) => RowBacking(ov, p).Some? && |text| <= MAX_SYMLINK_TARGET_BYTES
    case DoMkdir(p, _) => RowBacking(ov, p).Some?
    case _ => false
  }

  lemma MakingOverLeaks(ov: Overlay, op: StoreOp)
    requires Owned(ov) && MakesOver(ov, op)
    ensures !NothingLeaks(Apply(ov, op))
  {
    var id := ov.rows[op.p].backing.value;
    assert RowOwned(ov.rows[op.p], ov.files);
    assert id in Apply(ov, op).files && Unnamed(Apply(ov, op), id);
  }

  /** A row of the new table names the object. */
  predicate Names(ov: Overlay, p: Path, id: BackingId) {
    p in ov.rows && ov.rows[p].backing == Some(id)
  }

  lemma MadeStaysNamed(ov: Overlay, op: StoreOp, id: BackingId, p: Path)
    requires Owned(ov) && !MakesOver(ov, op) && id in Apply(ov, op).files
    requires op.DoCreate? || op.DoSymlink? || op.DoMkdir? || op.DoCopyUp?
    requires id in ov.files ==> Names(ov, p, id)
    ensures !Unnamed(Apply(ov, op), id)
  {
    if id in ov.files {
      assert RowOwned(ov.rows[p], ov.files);
      assert Names(Apply(ov, op), p, id);
    } else {
      assert Names(Apply(ov, op), op.p, id);
    }
  }

  lemma ChangedStaysNamed(ov: Overlay, op: StoreOp, id: BackingId, p: Path)
    requires Owned(ov) && Names(ov, p, id) && id in Apply(ov, op).files
    requires op.DoWrite? || op.DoTruncate? || op.DoChmod? || op.DoRemove?
    ensures !Unnamed(Apply(ov, op), id)
  {
    assert Names(Apply(ov, op), p, id);
  }

  lemma MovedStaysNamed(ov: Overlay, oldPath: Path, newPath: Path, e: Entry, whiteout: Option<Entry>, id: BackingId,
      p: Path)
    requires Owned(ov) && oldPath in ov.rows && oldPath != newPath && e.backing == ov.rows[oldPath].backing
    requires Names(ov, p, id) && id in MoveRow(ov, oldPath, newPath, e, whiteout).files
    ensures !Unnamed(MoveRow(ov, oldPath, newPath, e, whiteout), id)
  {
    assert Names(MoveRow(ov, oldPath, newPath, e, whiteout), if p == oldPath then newPath else p, id);
  }

  lemma CarriedStaysNamed(ov: Overlay, oldPath: Path, newPath: Path, sourceBase: set<Path>, destBase: set<Path>,
      id: BackingId, p: Path)
    requires Owned(ov) && Names(ov, p, id) && id in RenameTree(ov, oldPath, newPath, sourceBase, destBase).ov.files
    ensures !Unnamed(RenameTree(ov, oldPath, newPath, sourceBase, destBase).ov, id)
  {
    var after := RenameTree(ov, oldPath, newPath, sourceBase, destBase).ov;
    if oldPath == newPath || TreeMoveError(ov, oldPath, newPath) != OK {
      assert Names(after, p, id);
    } else {
      TreeMoveApart(ov, oldPath, newPath);
      assert RowOwned(ov.rows[p], ov.files);
      assert !Under(p, newPath);
      var q := if Under(p, oldPath) then Rebase(p, oldPath, newPath) else p;
      if Under(p, oldPath) { RebaseBack(p, oldPath, newPath); }
      TreeRowAt(ov, oldPath, newPath, sourceBase, destBase, q);
      assert Names(after, q, id);
    }
  }

  lemma ReconciledStaysNamed(ov: Overlay, base: Base, id: BackingId, p: Path)
    requires Owned(ov) && Names(ov, p, id) && id in Reconcile(ov, base).files
    ensures !Unnamed(Reconcile(ov, base), id)
  {
    SurvivorKeepsLayer(ov, base, p);
    assert Names(Reconcile(ov, base), p, id);
  }

  /** Only making something adds an object. */
  lemma OldObject(ov: Overlay, op: StoreOp, id: BackingId)
    requires Owned(ov) && id in Apply(ov, op).files
    ensures id in ov.files || op.DoCreate? || op.DoMkdir? || op.DoCopyUp?
  {
    if op.DoWrite? || op.DoTruncate? { assert op.p in ov.rows ==> RowOwned(ov.rows[op.p], ov.files); }
  }

  lemma StaysNamed(ov: Overlay, op: StoreOp, id: BackingId)
    requires Owned(ov) && NothingLeaks(ov) && Callable(ov, op) && !MakesOver(ov, op) && id in Apply(ov, op).files
    ensures !Unnamed(Apply(ov, op), id)
  {
    var p: Path := ROOT;
    if id in ov.files {
      var q :| q in ov.rows && ov.rows[q].backing == Some(id);
      p := q;
    }
    OldObject(ov, op, id);
    match op {
      case DoRename(oldPath, newPath) => RenamedStaysNamed(ov, oldPath, newPath, id, p);
      case DoRenameOntoBase(oldPath, newPath, oid, mode) => MarkedStaysNamed(ov, oldPath, newPath, oid, mode, id, p);
      case DoRenameTree(oldPath, newPath, sourceBase, destBase) =>
        CarriedStaysNamed(ov, oldPath, newPath, sourceBase, destBase, id, p);
      case DoReconcile(base) => ReconciledStaysNamed(ov, base, id, p);
      case DoCreate(_, _) => MadeStaysNamed(ov, op, id, p);
      case DoSymlink(_, _) => MadeStaysNamed(ov, op, id, p);
      case DoMkdir(_, _) => MadeStaysNamed(ov, op, id, p);
      case DoCopyUp(_, _, _) => MadeStaysNamed(ov, op, id, p);
      case _ => ChangedStaysNamed(ov, op, id, p);
    }
  }

  lemma MarkedStaysNamed(ov: Overlay, oldPath: Path, newPath: Path, oid: Oid, mode: nat, id: BackingId, p: Path)
    requires Owned(ov) && Names(ov, p, id) && id in RenameOntoBase(ov, oldPath, newPath, oid, mode).ov.files
    ensures !Unnamed(RenameOntoBase(ov, oldPath, newPath, oid, mode).ov, id)
  {
    if Live(ov, oldPath) && oldPath != newPath {
      var e := ov.rows[oldPath];
      var marked := e.(kind := if e.kind.Symlink? then Symlink else Modify, sourceOid := oid, sourceMode := mode);
      var whiteout := if e.kind.Symlink? && !e.sourceOid.NoOid? then Some(Whiteout(NoTarget)) else None;
      MovedStaysNamed(ov, oldPath, newPath, marked, whiteout, id, p);
    } else {
      assert Names(RenameOntoBase(ov, oldPath, newPath, oid, mode).ov, p, id);
    }
  }

  lemma RenamedStaysNamed(ov: Overlay, oldPath: Path, newPath: Path, id: BackingId, p: Path)
    requires Owned(ov) && Names(ov, p, id) && id in RenameRow(ov, oldPath, newPath).ov.files
    ensures !Unnamed(RenameRow(ov, oldPath, newPath).ov, id)
  {
    if Live(ov, oldPath) && oldPath != newPath {
      var e := ov.rows[oldPath];
      if e.kind.Mkdir? {
        CarriedStaysNamed(ov, oldPath, newPath, {}, {}, id, p);
      } else {
        var whiteout := if LeavesNoWhiteout(e) then None else Some(RenameWhiteout(e, oldPath));
        MovedStaysNamed(ov, oldPath, newPath, RenamedRow(e, oldPath), whiteout, id, p);
      }
    } else {
      assert Names(RenameRow(ov, oldPath, newPath).ov, p, id);
    }
  }

  /** An operation leaves a backing object behind if and only if it makes something over a row that has one. */
  lemma KeepsTidyIff(ov: Overlay, op: StoreOp)
    requires Owned(ov) && NothingLeaks(ov) && Callable(ov, op)
    ensures NothingLeaks(Apply(ov, op)) <==> !MakesOver(ov, op)
  {
    if MakesOver(ov, op) {
      MakingOverLeaks(ov, op);
    } else {
      forall id | id in Apply(ov, op).files ensures !Unnamed(Apply(ov, op), id) { StaysNamed(ov, op, id); }
    }
  }

  /** A tracked file whose content can be copied up. */
  predicate TrackedFile(base: Base, p: Path) {
    p in base && base[p].typ.FileType? && base[p].oid.Blob?
  }

  function CopyOf(base: Base, p: Path): StoreOp
    requires TrackedFile(base, p)
  {
    DoCopyUp(p, base[p], Some(base[p].oid.content))
  }

  lemma RunFirst(ov: Overlay, op: StoreOp, ops: seq<StoreOp>)
    ensures Run(ov, [op] + ops) == Run(Apply(ov, op), ops)
  {
    assert ([op] + ops)[1..] == ops;
  }

  /** `mv a b; mv b c` as the file system carries it out: both ends of a rename are copied up first. */
  function RenameChain(base: Base, a: Path, b: Path, c: Path): seq<StoreOp>
    requires TrackedFile(base, a) && TrackedFile(base, b)
  {
    [CopyOf(base, a)] + ([CopyOf(base, b)] + ([DoRename(a, b)] + ([DoRename(b, c)] + [])))
  }

  /** The chain leaves a whiteout at `b` that names `a`. */
  lemma ChainLeavesForeignWhiteout(base: Base, a: Path, b: Path, c: Path)
    requires TrackedFile(base, a) && TrackedFile(base, b) && a != b && b != c && c != a
    ensures var ov := Run(Overlay(map[], map[], 0), RenameChain(base, a, b, c));
            b in ov.rows && ov.rows[b] == Whiteout(Origin(a))
  {
    var ov0 := Overlay(map[], map[], 0);
    var ov1 := Apply(ov0, CopyOf(base, a));
    var ov2 := Apply(ov1, CopyOf(base, b));
    var ov3 := Apply(ov2, DoRename(a, b));
    RunFirst(ov3, DoRename(b, c), []);
    RunFirst(ov2, DoRename(a, b), [DoRename(b, c)] + []);
    RunFirst(ov1, CopyOf(base, b), [DoRename(a, b)] + ([DoRename(b, c)] + []));
    RunFirst(ov0, CopyOf(base, a), [CopyOf(base, b)] + ([DoRename(a, b)] + ([DoRename(b, c)] + [])));
    assert ov3.rows[b].kind.Rename? && ov3.rows[b].target == Origin(a);
  }

  /**
   * On every base with two tracked files `a` and `b`, the chain hides `b` until the next
   * reconcile drops that whiteout; then `b` shows its base content again.
   */
  lemma RenameChainReappears(base: Base, a: Path, b: Path, c: Path)
    requires WellFormedBase(base) && TrackedFile(base, a) && TrackedFile(base, b) && a != b && b != c && c != a
    ensures var ov := Run(Overlay(map[], map[], 0), RenameChain(base, a, b, c));
            && Resolve(ov, base, b) == None
            && Resolve(Reconcile(ov, base), base, b) == Some(BaseShows(base[b]))
  {
    ChainLeavesForeignWhiteout(base, a, b, c);
    ForeignWhiteoutIsDropped(Run(Overlay(map[], map[], 0), RenameChain(base, a, b, c)), base, b);
  }

  lemma ForeignWhiteoutIsDropped(ov: Overlay, base: Base, p: Path)
    requires p in ov.rows && ForeignWhiteout(p, ov.rows[p])
    ensures p !in Reconcile(ov, base).rows
  {
  }

  /** Replacing a tracked link by a file that holds its text, and taking all permissions off the file. */
  function LockedCopy(p: Path, n: BaseNode, text: Bytes, mode: nat): seq<StoreOp> {
    [DoCopyUp(p, n, Some(text))] +
    ([DoRemove(p)] + ([DoCreate(p, mode)] + ([DoWrite(p, 0, text)] + ([DoChmod(p, 0)] + []))))
  }

  lemma RunFive(ov: Overlay, a: StoreOp, b: StoreOp, c: StoreOp, d: StoreOp, e: StoreOp)
    ensures Run(ov, [a] + ([b] + ([c] + ([d] + ([e] + []))))) == Apply(Apply(Apply(Apply(Apply(ov, a), b), c), d), e)
  {
    RunFirst(ov, a, [b] + ([c] + ([d] + ([e] + []))));
    RunFirst(Apply(ov, a), b, [c] + ([d] + ([e] + [])));
    RunFirst(Apply(Apply(ov, a), b), c, [d] + ([e] + []));
    RunFirst(Apply(Apply(Apply(ov, a), b), c), d, [e] + []);
    RunFirst(Apply(Apply(Apply(Apply(ov, a), b), c), d), e, []);
  }

  /** Creating, writing and locking a file leaves a create row with that content and no permission bits. */
  lemma LockedFileRow(ov: Overlay, p: Path, text: Bytes, mode: nat)
    requires Owned(ov)
    ensures var after := Apply(Apply(Apply(ov, DoCreate(p, mode)), DoWrite(p, 0, text)), DoChmod(p, 0));
            && p in after.rows && after.rows[p].kind.Create? && Perm(after.rows[p].mode) == 0
            && BackingContent(after.files, after.rows[p].backing) == Data(text)
  {
    CreateFileShows(ov, p, mode);
    var created := Apply(ov, DoCreate(p, mode));
    assert created.rows[p].kind.Create?;
    WriteFileShows(created, p, 0, text);
    assert Spliced([], 0, text) == text;
  }

  lemma LockedCopyRow(p: Path, n: BaseNode, text: Bytes, mode: nat)
    ensures var ov := Run(Overlay(map[], map[], 0), LockedCopy(p, n, text, mode));
            && p in ov.rows && ov.rows[p].kind.Create? && Perm(ov.rows[p].mode) == 0
            && BackingContent(ov.files, ov.rows[p].backing) == Data(text)
  {
    var ov0, copy := Overlay(map[], map[], 0), DoCopyUp(p, n, Some(text));
    RunFive(ov0, copy, DoRemove(p), DoCreate(p, mode), DoWrite(p, 0, text), DoChmod(p, 0));
    OwnedAfterTwo(ov0, copy, DoRemove(p));
    LockedFileRow(Apply(Apply(ov0, copy), DoRemove(p)), p, text, mode);
  }

  lemma OwnedAfterTwo(ov: Overlay, a: StoreOp, b: StoreOp)
    requires Owned(ov) && Callable(ov, a) && Callable(Apply(ov, a), b)
    ensures Owned(Apply(Apply(ov, a), b))
  {
    ApplyKeepsOwned(ov, a);
    ApplyKeepsOwned(Apply(ov, a), b);
  }

  /** The next reconcile drops the file although it was never committed, and the link is back. */
  lemma LockedFileBecomesLink(base: Base, p: Path, mode: nat)
    requires WellFormedBase(base) && p in base && base[p].typ.LinkType?
    requires base[p].oid.Blob? && |base[p].oid.content| <= MAX_SYMLINK_TARGET_BYTES
    ensures var text := base[p].oid.content;
            var ov := Run(Overlay(map[], map[], 0), LockedCopy(p, base[p], text, mode));
            && Resolve(ov, base, p) == Some(FileNode(Data(text), 0))
            && Resolve(Reconcile(ov, base), base, p) == Some(LinkNode(Data(text)))
  {
    var text := base[p].oid.content;
    LockedCopyRow(p, base[p], text, mode);
    var ov := Run(Overlay(map[], map[], 0), LockedCopy(p, base[p], text, mode));
    assert Confusable(ov, base, p) && RowFate(ov, base, p).Drop?;
  }
}
