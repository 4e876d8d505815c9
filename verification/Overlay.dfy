/**
 * The overlay table as a value: what each store operation makes of the rows and backing
 * objects, and what that means for the tree a user sees.
 */
module Overlays {
  import opened Paths
  import opened Model

  /** overlay_entries, the upper directory, and the next temporary name it would hand out. */
  datatype Overlay = Overlay(rows: map<Path, Entry>, files: map<BackingId, Backing>, next: BackingId)

  datatype Error = OK | NotExist | Invalid | Exist | TooLong | IOError

  datatype Res = Res(ov: Overlay, err: Error)

  // ---------- The merged view ----------

  /** What a row contributes to the view: nothing, a whiteout, or a node. */
  datatype Layer = Clear | Hidden | Shown(node: Node)

  function BackingContent(files: map<BackingId, Backing>, backing: Option<BackingId>): Content {
    if backing.Some? && backing.value in files && files[backing.value].FileObj?
    then Data(files[backing.value].data)
    else Unreadable
  }

  function RowShows(e: Entry, files: map<BackingId, Backing>): Node {
    match e.NodeType()
    case DirType => DirNode
    case LinkType => LinkNode(if e.target.LinkText? then Data(e.target.text) else Unreadable)
    case FileType => FileNode(BackingContent(files, e.backing), Perm(e.mode))
  }

  function LayerAt(ov: Overlay, p: Path): Layer {
    if p !in ov.rows then Clear
    else if ov.rows[p].IsDeleted() then Hidden
    else Shown(RowShows(ov.rows[p], ov.files))
  }

  /** resolvePath: a row decides, a path without a row falls through to the base. */
  function Resolve(ov: Overlay, base: Base, p: Path): Option<Node> {
    match LayerAt(ov, p)
    case Shown(node) => Some(node)
    case Hidden => None
    case Clear => if p in base then Some(BaseShows(base[p])) else None
  }

  ghost predicate SameView(before: Overlay, after: Overlay, base: Base) {
    forall p :: Resolve(after, base, p) == Resolve(before, base, p)
  }

  // ---------- Backing-file ownership ----------

  predicate RowOwned(e: Entry, files: map<BackingId, Backing>) {
    match e.kind
    case Delete => e.backing.None? && !e.target.LinkText?
    case Symlink => e.backing.None? && e.target.LinkText? && e.size == |e.target.text|
    case Mkdir => e.backing.Some? && e.backing.value in files && files[e.backing.value].DirObj? && !e.target.LinkText?
    case _ =>
      && e.backing.Some? && e.backing.value in files && files[e.backing.value].FileObj?
      && e.size == |files[e.backing.value].data| && !e.target.LinkText?
  }

  /** Live non-link rows own one existing backing object each; whiteouts and links own none. */
  ghost predicate Owned(ov: Overlay) {
    && (forall id :: id in ov.files ==> id < ov.next)
    && (forall p :: p in ov.rows ==> RowOwned(ov.rows[p], ov.files))
    && (forall p, q :: p in ov.rows && q in ov.rows && p != q && ov.rows[p].backing.Some? ==>
          ov.rows[p].backing != ov.rows[q].backing)
  }

  function Unlinked(files: map<BackingId, Backing>, backing: Option<BackingId>): map<BackingId, Backing> {
    if backing.Some? then files - {backing.value} else files
  }

  predicate Live(ov: Overlay, p: Path) {
    p in ov.rows && !ov.rows[p].IsDeleted()
  }

  function RowBacking(ov: Overlay, p: Path): Option<BackingId> {
    if p in ov.rows then ov.rows[p].backing else None
  }

  function Whiteout(target: Target): Entry {
    Entry(Delete, None, 0, 0, NoOid, 0, target)
  }

  // ---------- Operations on one row ----------

  function CreateFile(ov: Overlay, p: Path, mode: nat): Res {
    var e := Entry(Create, Some(ov.next), mode, 0, NoOid, 0, NoTarget);
    Res(Overlay(ov.rows[p := e], ov.files[ov.next := FileObj([])], ov.next + 1), OK)
  }

  function CreateSymlink(ov: Overlay, p: Path, text: Bytes): Res {
    if |text| > MAX_SYMLINK_TARGET_BYTES then Res(ov, TooLong)
    else Res(ov.(rows := ov.rows[p := Entry(Symlink, None, LINK_MODE, |text|, NoOid, 0, LinkText(text))]), OK)
  }

  function MakeDir(ov: Overlay, p: Path, mode: nat): Res {
    var e := Entry(Mkdir, Some(ov.next), NormalizeGitDirMode(mode), 0, NoOid, 0, NoTarget);
    Res(Overlay(ov.rows[p := e], ov.files[ov.next := DirObj], ov.next + 1), OK)
  }

  /** EnsureCopyOnWriteFrom: `src` is the hydrated blob, absent when the node has no object id. */
  function CopyUp(ov: Overlay, p: Path, n: BaseNode, src: Option<Bytes>): Res {
    if Live(ov, p) then Res(ov, OK)
    else if n.typ.LinkType? then
      if src.None? then Res(ov, IOError)
      else if |src.value| > MAX_SYMLINK_TARGET_BYTES then Res(ov, TooLong)
      else
        var e := Entry(Symlink, None, n.mode, |src.value|, n.oid, n.mode, LinkText(src.value));
        Res(ov.(rows := ov.rows[p := e]), OK)
    else
      var data := if src.Some? then src.value else [];
      var e := Entry(Modify, Some(ov.next), n.mode, |data|, n.oid, n.mode, NoTarget);
      Res(Overlay(ov.rows[p := e], ov.files[ov.next := FileObj(data)], ov.next + 1), OK)
  }

  /** The row after its backing file was rewritten: anything but a create is now a modify. */
  function Rewritten(ov: Overlay, p: Path, data: Bytes): Overlay
    requires p in ov.rows && ov.rows[p].backing.Some?
  {
    var e := ov.rows[p];
    var e' := e.(size := |data|, kind := if e.kind.Create? then e.kind else Modify);
    ov.(rows := ov.rows[p := e'], files := ov.files[e.backing.value := FileObj(data)])
  }

  function WriteFile(ov: Overlay, p: Path, off: nat, data: Bytes): Res {
    if !Live(ov, p) then Res(ov, NotExist)
    else match BackingContent(ov.files, ov.rows[p].backing)
      case Data(was) => Res(Rewritten(ov, p, Spliced(was, off, data)), OK)
      case _ => Res(ov, IOError)
  }

  function Truncate(ov: Overlay, p: Path, size: nat): Res {
    if !Live(ov, p) then Res(ov, NotExist)
    else match BackingContent(ov.files, ov.rows[p].backing)
      case Data(was) => Res(Rewritten(ov, p, Resized(was, size)), OK)
      case _ => Res(ov, IOError)
  }

  function SetMode(ov: Overlay, p: Path, mode: nat): Res {
    if !Live(ov, p) then Res(ov, NotExist)
    else
      var e := ov.rows[p];
      Res(ov.(rows := ov.rows[p := e.(mode := WithPerm(e.mode, mode))]), OK)
  }

  function Remove(ov: Overlay, p: Path): Res {
    Res(Overlay(ov.rows[p := Whiteout(NoTarget)], Unlinked(ov.files, RowBacking(ov, p)), ov.next), OK)
  }

  // ---------- Renaming one row ----------

  /** A row a rename moves without leaving a whiteout behind. */
  predicate LeavesNoWhiteout(e: Entry) {
    e.kind.Create? || (e.kind.Symlink? && e.sourceOid.NoOid?)
  }

  function RenamedRow(e: Entry, oldPath: Path): Entry {
    match e.kind
    case Create => e.(target := NoTarget)
    case Symlink => e.(sourceOid := NoOid, sourceMode := 0)
    case Rename => e.(target := if e.target.NoTarget? then Origin(oldPath) else e.target)
    case _ => e.(kind := Rename, target := Origin(oldPath))
  }

  function RenameWhiteout(e: Entry, oldPath: Path): Entry {
    Whiteout(if e.kind.Rename? && !e.target.NoTarget? then e.target else Origin(oldPath))
  }

  /** The transaction shared by both row renames: move the row, drop what it replaces. */
  function MoveRow(ov: Overlay, oldPath: Path, newPath: Path, e: Entry, whiteout: Option<Entry>): Overlay {
    var rows := (ov.rows - {oldPath})[newPath := e];
    var replaced := RowBacking(ov, newPath);
    Overlay(
      if whiteout.Some? then rows[oldPath := whiteout.value] else rows,
      if replaced == e.backing then ov.files else Unlinked(ov.files, replaced),
      ov.next)
  }

  function RenameRow(ov: Overlay, oldPath: Path, newPath: Path): Res {
    if !Live(ov, oldPath) then Res(ov, NotExist)
    else if oldPath == newPath then Res(ov, OK)
    else
      var e := ov.rows[oldPath];
      if e.kind.Mkdir? then RenameTree(ov, oldPath, newPath, {}, {})
      else
        var whiteout := if LeavesNoWhiteout(e) then None else Some(RenameWhiteout(e, oldPath));
        Res(MoveRow(ov, oldPath, newPath, RenamedRow(e, oldPath), whiteout), OK)
  }

  /** RenameAndMarkModifiedFromBase */
  function RenameOntoBase(ov: Overlay, oldPath: Path, newPath: Path, oid: Oid, mode: nat): Res {
    if !Live(ov, oldPath) then Res(ov, NotExist)
    else
      var e := ov.rows[oldPath];
      var marked := e.(kind := if e.kind.Symlink? then Symlink else Modify, sourceOid := oid, sourceMode := mode);
      if oldPath == newPath then
        var e' := marked.(target := if e.kind.Symlink? then e.target else NoTarget);
        Res(ov.(rows := ov.rows[oldPath := e']), OK)
      else
        var whiteout := if e.kind.Symlink? && !e.sourceOid.NoOid? then Some(Whiteout(NoTarget)) else None;
        Res(MoveRow(ov, oldPath, newPath, marked, whiteout), OK)
  }

  // ---------- Renaming a tree of rows ----------

  function LiveUnder(ov: Overlay, root: Path): set<Path> {
    set p | p in ov.rows && Under(p, root) && !ov.rows[p].IsDeleted()
  }

  predicate InvalidTreeMove(oldPath: Path, newPath: Path) {
    oldPath == ROOT || newPath == ROOT || StrictlyUnder(newPath, oldPath)
  }

  function TreeMoveError(ov: Overlay, oldPath: Path, newPath: Path): Error {
    if InvalidTreeMove(oldPath, newPath) then Invalid
    else if !Live(ov, oldPath) then NotExist
    else if !ov.rows[oldPath].kind.Mkdir? then Invalid
    else if Live(ov, newPath) && !ov.rows[newPath].kind.Mkdir? then Invalid
    else if LiveUnder(ov, newPath) <= {newPath} then OK
    else Exist
  }

  /** A row carried along by a tree rename; `tracked` says the base holds its old path. */
  function CarriedRow(e: Entry, source: Path, tracked: bool): Entry {
    match e.kind
    case Modify =>
      if tracked then e.(kind := Rename, target := if e.target.NoTarget? then Origin(source) else e.target) else e
    case Symlink => if tracked then e.(sourceOid := NoOid, sourceMode := 0) else e
    case Mkdir => e.(mode := NormalizeGitDirMode(e.mode))
    case _ => e
  }

  function CarriedPaths(ov: Overlay, oldPath: Path, newPath: Path): set<Path> {
    set p | p in LiveUnder(ov, oldPath) :: Rebase(p, oldPath, newPath)
  }

  lemma CarriedPathsAre(ov: Overlay, oldPath: Path, newPath: Path, q: Path)
    ensures q in CarriedPaths(ov, oldPath, newPath) <==>
            Under(q, newPath) && Live(ov, Rebase(q, newPath, oldPath))
  {
    if q in CarriedPaths(ov, oldPath, newPath) {
      var p :| p in LiveUnder(ov, oldPath) && q == Rebase(p, oldPath, newPath);
      RebaseBack(p, oldPath, newPath);
    }
    if Under(q, newPath) {
      RebaseBack(q, newPath, oldPath);
    }
  }

  /** Base paths a tree rename hides: all tracked sources, and tracked destinations nothing moved onto. */
  function TreeWhiteouts(ov: Overlay, oldPath: Path, newPath: Path,
      sourceBase: set<Path>, destBase: set<Path>): set<Path> {
    (set p | p in sourceBase && Under(p, oldPath)) +
    (set p | p in destBase && StrictlyUnder(p, newPath) && p !in CarriedPaths(ov, oldPath, newPath))
  }

  /** The rows a tree rename leaves where they are. */
  function KeptRows(ov: Overlay, oldPath: Path, newPath: Path): map<Path, Entry> {
    map p | p in ov.rows && !Under(p, oldPath) && !Under(p, newPath) :: ov.rows[p]
  }

  /** The rows it carries along, under their new paths. */
  function MovedRows(ov: Overlay, oldPath: Path, newPath: Path, sourceBase: set<Path>): map<Path, Entry> {
    map q | q in CarriedPaths(ov, oldPath, newPath) && Under(q, newPath) && Rebase(q, newPath, oldPath) in ov.rows ::
      (var p := Rebase(q, newPath, oldPath); CarriedRow(ov.rows[p], p, p in sourceBase))
  }

  function SelfWhiteouts(paths: set<Path>): map<Path, Entry> {
    map p | p in paths :: Whiteout(Origin(p))
  }

  function TreeRows(ov: Overlay, oldPath: Path, newPath: Path,
      sourceBase: set<Path>, destBase: set<Path>): map<Path, Entry> {
    KeptRows(ov, oldPath, newPath) + MovedRows(ov, oldPath, newPath, sourceBase) +
    SelfWhiteouts(TreeWhiteouts(ov, oldPath, newPath, sourceBase, destBase))
  }

  function BackingsUnder(ov: Overlay, root: Path): set<BackingId> {
    set p | p in ov.rows && Under(p, root) && ov.rows[p].backing.Some? :: ov.rows[p].backing.value
  }

  function LiveBackingsUnder(ov: Overlay, root: Path): set<BackingId> {
    set p | p in LiveUnder(ov, root) && ov.rows[p].backing.Some? :: ov.rows[p].backing.value
  }

  function RenameTree(ov: Overlay, oldPath: Path, newPath: Path, sourceBase: set<Path>, destBase: set<Path>): Res {
    if oldPath == newPath then Res(ov, if Live(ov, oldPath) then OK else NotExist)
    else
      var err := TreeMoveError(ov, oldPath, newPath);
      if err != OK then Res(ov, err)
      else
        var doomed := BackingsUnder(ov, newPath) - LiveBackingsUnder(ov, oldPath);
        Res(Overlay(TreeRows(ov, oldPath, newPath, sourceBase, destBase), ov.files - doomed, ov.next), OK)
  }
}
