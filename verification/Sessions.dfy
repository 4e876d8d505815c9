/**
 * Sessions of file system calls and generation switches.  The program carries out every call it
 * gets, on whatever its paths show by then; exactly when the view is still a tree afterwards,
 * which is what a directory rename needs to be exact.
 */
module Sessions {
  import opened Paths
  import opened Model
  import opened Overlays
  import opened OverlayEffects
  import opened OverlayStore
  import opened Reconciles
  import opened Listing
  import opened RenameViews
  import opened TreeWalks
  import opened Engines
  import opened SwitchViews
  import opened Inodes
  import opened Fuse

  /** A fresh mount shows a tree: the base is closed under parents. */
  lemma CleanMountIsTree(ov: Overlay, base: Base)
    requires WellFormedBase(base) && ov.rows == map[]
    ensures TreeShaped(ov, base)
  {
  }

  /** Nothing is visible directly below the path. */
  ghost predicate Childless(ov: Overlay, base: Base, p: Path) {
    forall q :: q != ROOT && Parent(q) == p ==> Resolve(ov, base, q) == None
  }

  /** A file or link put at a path keeps the tree if and only if a directory is above and nothing below it. */
  lemma LeafKeepsTreeIff(before: Overlay, after: Overlay, base: Base, p: Path, node: Node)
    requires TreeShaped(before, base) && Now(before, after, base, p, Some(node)) && p != ROOT && node != DirNode
    ensures TreeShaped(after, base) <==> Resolve(before, base, Parent(p)) == Some(DirNode) && Childless(before, base, p)
  {
    assert Resolve(after, base, Parent(p)) == Resolve(before, base, Parent(p));
    if TreeShaped(after, base) {
      forall q | q != ROOT && Parent(q) == p
        ensures Resolve(before, base, q) == None
      {
        assert q != p && Resolve(after, base, q) == Resolve(before, base, q);
      }
    }
  }

  /** A directory put there, if and only if a directory is above it. */
  lemma DirectoryKeepsTreeIff(before: Overlay, after: Overlay, base: Base, p: Path)
    requires TreeShaped(before, base) && Now(before, after, base, p, Some(DirNode)) && p != ROOT
    ensures TreeShaped(after, base) <==> Resolve(before, base, Parent(p)) == Some(DirNode)
  {
    assert Resolve(after, base, Parent(p)) == Resolve(before, base, Parent(p));
  }

  /** Removing what is there, if and only if nothing is below it. */
  lemma RemovalKeepsTreeIff(before: Overlay, after: Overlay, base: Base, p: Path)
    requires TreeShaped(before, base) && Now(before, after, base, p, None) && p != ROOT
    ensures TreeShaped(after, base) <==> Childless(before, base, p)
  {
    if TreeShaped(after, base) {
      forall q | q != ROOT && Parent(q) == p
        ensures Resolve(before, base, q) == None
      {
        assert q != p && Resolve(after, base, q) == Resolve(before, base, q);
      }
    }
  }

  /** What is above the new path once the old one is gone; a file may uncover a directory of the base. */
  function LandsIn(ov: Overlay, base: Base, oldPath: Path, newPath: Path): Option<Node>
    requires newPath != ROOT
  {
    if Parent(newPath) == oldPath && Resolve(ov, base, oldPath) != Some(DirNode)
    then LeftBehind(ov, base, oldPath) else Resolve(ov, base, Parent(newPath))
  }

  /** And a rename, if and only if that is a directory. */
  lemma RenameKeepsTreeIff(before: Overlay, after: Overlay, base: Base, oldPath: Path, newPath: Path)
    requires TreeShaped(before, base) && oldPath != ROOT && newPath != ROOT && oldPath != newPath
    requires Replaceable(before, base, oldPath, newPath) && RenamedAs(before, after, base, oldPath, newPath)
    ensures TreeShaped(after, base) <==> LandsIn(before, base, oldPath, newPath) == Some(DirNode)
  {
    if Resolve(before, base, oldPath) == Some(DirNode) {
      TreeRenameKeepsTreeIff(before, after, base, oldPath, newPath);
    } else {
      LeafRenameKeepsTreeIff(before, after, base, oldPath, newPath);
    }
  }

  lemma TreeRenameKeepsTreeIff(before: Overlay, after: Overlay, base: Base, oldPath: Path, newPath: Path)
    requires TreeShaped(before, base) && TreeMoved(before, after, base, oldPath, newPath)
    requires oldPath != ROOT && newPath != ROOT && Apart(oldPath, newPath)
    requires Resolve(before, base, oldPath) == Some(DirNode) && EmptyOrAbsent(before, base, newPath)
    ensures TreeShaped(after, base) <==> Resolve(before, base, Parent(newPath)) == Some(DirNode)
  {
    ParentUnder(newPath, oldPath);
    assert !Under(Parent(newPath), newPath);
    assert Resolve(after, base, Parent(newPath)) == Resolve(before, base, Parent(newPath));
    assert Rebase(newPath, newPath, oldPath) == oldPath;
    if Resolve(before, base, Parent(newPath)) == Some(DirNode) {
      TreeMovedKeepsShape(before, after, base, oldPath, newPath);
    }
  }

  lemma LeafRenameKeepsTreeIff(before: Overlay, after: Overlay, base: Base, oldPath: Path, newPath: Path)
    requires TreeShaped(before, base) && oldPath != ROOT && newPath != ROOT && oldPath != newPath
    requires Replaceable(before, base, oldPath, newPath) && Resolve(before, base, oldPath) != Some(DirNode)
    requires LeafRenamed(before, after, base, oldPath, newPath)
    ensures TreeShaped(after, base) <==> LandsIn(before, base, oldPath, newPath) == Some(DirNode)
  {
    assert Parent(newPath) != newPath && Parent(oldPath) != oldPath;
    assert Resolve(after, base, Parent(newPath)) == LandsIn(before, base, oldPath, newPath);
    assert Parent(oldPath) != newPath;
    if LandsIn(before, base, oldPath, newPath) == Some(DirNode) {
      forall q | q != ROOT && Resolve(after, base, q).Some?
        ensures Resolve(after, base, Parent(q)) == Some(DirNode)
      {
        if q != newPath && q != oldPath { assert Resolve(before, base, Parent(q)) == Some(DirNode); }
      }
    }
  }

  /** A new directory is empty, even where a directory with tracked contents was removed. */
  lemma NewDirectoryIsEmpty(before: Overlay, after: Overlay, base: Base, p: Path)
    requires TreeShaped(before, base) && Resolve(before, base, p) == None
    requires Now(before, after, base, p, Some(DirNode))
    ensures EmptyOrAbsent(after, base, p)
  {
    forall q | StrictlyUnder(q, p) ensures Resolve(after, base, q) == None { NothingBelow(before, base, p, q); }
  }

  // ---------- Calls ----------

  datatype Call =
    | DoCreate(p: Path, mode: nat)
    | DoSymlink(p: Path, text: Bytes)
    | DoMkdir(p: Path, mode: nat)
    | DoWrite(p: Path, off: nat, data: Bytes)
    | DoUnlink(p: Path)
    | DoRmdir(p: Path)
    | DoRename(oldPath: Path, newPath: Path)
    | DoSwitch(newer: Base)              // a generation switch

  /** All there is to a mounted repository. */
  datatype Mount = Mount(ov: Overlay, base: Base, table: Table)

  function Shows(m: Mount, p: Path): Option<Node> {
    Resolve(m.ov, m.base, p)
  }

  /** Names have a parent, and generations are closed under parents. */
  ghost predicate WellFormedCall(call: Call) {
    match call
    case DoSwitch(newer) => WellFormedBase(newer)
    case DoRename(oldPath, newPath) => oldPath != ROOT && newPath != ROOT
    case _ => call.p != ROOT
  }

  /** What can be looked up before a call, and decides whether a tree stays one. */
  ghost predicate Fits(m: Mount, call: Call)
    requires WellFormedCall(call)
  {
    match call
    case DoCreate(p, _) => Shows(m, Parent(p)) == Some(DirNode) && Childless(m.ov, m.base, p)
    case DoSymlink(p, _) => Shows(m, Parent(p)) == Some(DirNode) && Childless(m.ov, m.base, p)
    case DoMkdir(p, _) => Shows(m, Parent(p)) == Some(DirNode)
    case DoWrite(p, _, _) => Shows(m, Parent(p)) == Some(DirNode) && Childless(m.ov, m.base, p)
    case DoUnlink(p) => Childless(m.ov, m.base, p)
    case DoRmdir(_) => true
    case DoRename(oldPath, newPath) =>
      oldPath == newPath || LandsIn(m.ov, m.base, oldPath, newPath) == Some(DirNode)
    case DoSwitch(newer) => FitsTree(m.ov.rows, newer)
  }

  predicate VisibleParent(m: Mount, p: Path) {
    p != ROOT && Shows(m, Parent(p)) == Some(DirNode)
  }

  /** What the kernel finds when it looks the paths of a call up just before it makes it. */
  predicate LookedUp(m: Mount, call: Call) {
    match call
    case DoCreate(p, _) => VisibleParent(m, p) && Shows(m, p).None?
    case DoSymlink(p, _) => VisibleParent(m, p) && Shows(m, p).None?
    case DoMkdir(p, _) => VisibleParent(m, p) && Shows(m, p).None?
    case DoWrite(p, _, _) => p != ROOT && Shows(m, p).Some? && Shows(m, p).value.FileNode?
    case DoUnlink(p) => p != ROOT && Shows(m, p).Some? && Shows(m, p) != Some(DirNode)
    case DoRmdir(p) => p != ROOT && Shows(m, p) == Some(DirNode)
    case DoRename(oldPath, newPath) => VisibleParent(m, oldPath) && VisibleParent(m, newPath)
    case DoSwitch(newer) => FitsTree(m.ov.rows, newer)
  }

  /** A call whose paths have just been looked up fits; one through an older handle or inode need not. */
  lemma LookedUpFits(m: Mount, call: Call)
    requires TreeShaped(m.ov, m.base) && WellFormedCall(call) && LookedUp(m, call)
    ensures Fits(m, call)
  {
  }

  /** The path shows the node, in a row that leaves no whiteout when renamed, or in one that does. */
  ghost predicate Becomes(before: Mount, after: Mount, p: Path, shows: Option<Node>, bare: bool) {
    && after.base == before.base
    && Now(before.ov, after.ov, before.base, p, shows) && BareNow(before.ov, after.ov, p, bare)
  }

  /** A tree has moved exactly, as rename() asks; a file or link but for a base node it uncovers. */
  ghost predicate Renamed(before: Mount, after: Mount, oldPath: Path, newPath: Path) {
    && after.base == before.base && after.table == Move(before.table, oldPath, newPath)
    && Replaceable(before.ov, before.base, oldPath, newPath)
    && RenamedAs(before.ov, after.ov, before.base, oldPath, newPath)
    && (TreeShaped(before.ov, before.base) ==>
          IdentitiesKept(before.ov, after.ov, before.base, before.table, after.table, oldPath, newPath))
  }

  /** What a successful call makes of the mount. */
  ghost predicate Done(before: Mount, after: Mount, call: Call) {
    match call
    case DoCreate(p, mode) =>
      Becomes(before, after, p, Some(FileNode(Data([]), Perm(mode))), true) && after.table == Alloc(before.table, p)
    case DoSymlink(p, text) =>
      Becomes(before, after, p, Some(LinkNode(Data(text))), true) && after.table == Alloc(before.table, p)
    case DoMkdir(p, mode) =>
      && HasDirectoryRow(after.ov, p, mode)
      && Becomes(before, after, p, Some(DirNode), false) && after.table == Alloc(before.table, p)
      && (TreeShaped(before.ov, before.base) && Shows(before, p).None? ==> EmptyOrAbsent(after.ov, after.base, p))
    case DoWrite(p, off, data) =>
      && after.base == before.base && after.table == before.table
      && Written(before.ov, after.ov, before.base, p, off, data)
    case DoUnlink(p) => Becomes(before, after, p, None, false) && after.table == before.table
    case DoRmdir(p) => Becomes(before, after, p, None, false) && after.table == before.table && Unlisted(before, p)
    case DoRename(oldPath, newPath) =>
      if oldPath == newPath then Unnoticed(before, after) else Renamed(before, after, oldPath, newPath)
    case DoSwitch(newer) => after == Mount(Reconcile(before.ov, newer), newer, before.table)
  }

  /** A listing of the path is empty. */
  ghost predicate Unlisted(m: Mount, p: Path) {
    forall name :: ChildAt(m.ov, m.base, p + [name]).None?
  }

  ghost predicate Unnoticed(before: Mount, after: Mount) {
    after.base == before.base && after.table == before.table && Unseen(before.ov, after.ov, before.base)
  }

  /** All a failed call can leave behind: a write its empty file, an unlink what copy-up makes of a base directory. */
  ghost predicate Halfway(before: Mount, after: Mount, call: Call) {
    match call
    case DoWrite(p, _, _) =>
      after.base == before.base && after.table == before.table && Begun(before.ov, after.ov, before.base, p)
    case DoUnlink(p) =>
      && after.table == before.table && !CopyableOrAbsent(before.ov, before.base, p)
      && Becomes(before, after, p, Some(CopiedUp(before.base[p])), Bare(before.ov, p))
    case _ => false
  }

  /** What a call needs in order to succeed, once nothing fails. */
  ghost predicate Feasible(m: Mount, call: Call) {
    match call
    case DoCreate(_, _) => true
    case DoSymlink(_, text) => |text| <= MAX_SYMLINK_TARGET_BYTES
    case DoMkdir(_, _) => true
    case DoWrite(p, _, _) =>
      (match WriteStartsFrom(m.ov, m.base, p)
       case Some(FileNode(Data(_), _)) => true
       case _ => false)
    case DoUnlink(p) => Rowable(m.ov, m.base, p)
    case DoRmdir(p) => Unlisted(m, p)
    case DoRename(oldPath, newPath) =>
      if oldPath == newPath then Shows(m, oldPath).Some? else CanRename(m.ov, m.base, oldPath, newPath)
    case DoSwitch(_) => true
  }

  /** One call: what it does, whether the view is a tree after it, and when it succeeds. */
  ghost predicate Served(before: Mount, after: Mount, call: Call, err: Error, reliable: bool)
    requires WellFormedCall(call)
  {
    && (if err == OK then Done(before, after, call)
        else Unnoticed(before, after) || Halfway(before, after, call))
    && (TreeShaped(before.ov, before.base) ==>
          (TreeShaped(after.ov, after.base) <==> Fits(before, call) || Unnoticed(before, after)))
    && (reliable && (call.DoRename? ==> TreeShaped(before.ov, before.base)) ==>
          (err == OK <==> Feasible(before, call)))
  }

  lemma UnnoticedKeepsTree(before: Mount, after: Mount)
    requires Unnoticed(before, after) && TreeShaped(before.ov, before.base)
    ensures TreeShaped(after.ov, after.base)
  {
  }

  /** Whatever a call has done to a tree: it is one still if and only if the call fits or nothing shows. */
  lemma DoneKeepsTreeIff(before: Mount, after: Mount, call: Call)
    requires WellFormedCall(call) && TreeShaped(before.ov, before.base) && Owned(before.ov)
    requires Done(before, after, call) || Halfway(before, after, call)
    ensures TreeShaped(after.ov, after.base) <==> Fits(before, call) || Unnoticed(before, after)
  {
    var ov, base := before.ov, before.base;
    if Unnoticed(before, after) {
      UnnoticedKeepsTree(before, after);
    } else {
      match call {
        case DoCreate(p, mode) => LeafKeepsTreeIff(ov, after.ov, base, p, FileNode(Data([]), Perm(mode)));
        case DoSymlink(p, text) => LeafKeepsTreeIff(ov, after.ov, base, p, LinkNode(Data(text)));
        case DoMkdir(p, _) => DirectoryKeepsTreeIff(ov, after.ov, base, p);
        case DoWrite(p, _, _) => LeafKeepsTreeIff(ov, after.ov, base, p, Shows(after, p).value);
        case DoUnlink(p) =>
          if Shows(after, p) == None {
            RemovalKeepsTreeIff(ov, after.ov, base, p);
          } else {
            LeafKeepsTreeIff(ov, after.ov, base, p, CopiedUp(base[p]));
          }
        case DoRmdir(p) =>
          RemovalKeepsTreeIff(ov, after.ov, base, p);
          UnlistedIsChildless(before, p);
        case DoRename(oldPath, newPath) => RenameKeepsTreeIff(ov, after.ov, base, oldPath, newPath);
        case DoSwitch(newer) => SwitchKeepsTreeIff(ov, newer);
      }
    }
  }

  lemma UnlistedIsChildless(m: Mount, p: Path)
    requires Unlisted(m, p)
    ensures Childless(m.ov, m.base, p)
  {
    forall q | q != ROOT && Parent(q) == p
      ensures Resolve(m.ov, m.base, q) == None
    {
      assert ChildAt(m.ov, m.base, p + [BaseName(q)]).None?;
      UnlistedIsInvisible(m.ov, m.base, p, q);
    }
  }

  function MountOf(fuse: ArtifactFuse): Mount
    reads fuse, fuse.engine, fuse.engine.overlay, fuse.table
  {
    Mount(fuse.engine.overlay.State(), fuse.engine.base, fuse.table.State())
  }

  /** Once it is known what a call has done, so is whether the view is a tree. */
  lemma Settle(before: Mount, after: Mount, call: Call, err: Error)
    requires WellFormedCall(call) && Owned(before.ov)
    requires if err == OK then Done(before, after, call) else Unnoticed(before, after) || Halfway(before, after, call)
    ensures TreeShaped(before.ov, before.base) ==>
              (TreeShaped(after.ov, after.base) <==> Fits(before, call) || Unnoticed(before, after))
  {
    if TreeShaped(before.ov, before.base) {
      if Unnoticed(before, after) { UnnoticedKeepsTree(before, after); } else { DoneKeepsTreeIff(before, after, call); }
    }
  }

  /** One call, on whatever its paths show. */
  method Serve(fuse: ArtifactFuse, call: Call) returns (err: Error)
    requires fuse.Valid() && WellFormedCall(call)
    modifies fuse.engine, fuse.engine.overlay, fuse.table
    ensures fuse.Valid()
    ensures Served(old(MountOf(fuse)), MountOf(fuse), call, err, fuse.engine.overlay.reliable)
  {
    match call {
      case DoCreate(p, mode) => err := ServeCreate(fuse, p, mode);
      case DoSymlink(p, text) => err := ServeSymlink(fuse, p, text);
      case DoMkdir(p, mode) => err := ServeMkdir(fuse, p, mode);
      case DoWrite(p, off, data) => err := ServeWrite(fuse, p, off, data);
      case DoUnlink(p) => err := ServeUnlink(fuse, p);
      case DoRmdir(p) => err := ServeRmdir(fuse, p);
      case DoRename(oldPath, newPath) => err := ServeRename(fuse, oldPath, newPath);
      case DoSwitch(newer) => err := ServeSwitch(fuse, newer);
    }
  }

  method ServeCreate(fuse: ArtifactFuse, p: Path, mode: nat) returns (err: Error)
    requires fuse.Valid() && WellFormedCall(DoCreate(p, mode))
    modifies fuse.engine.overlay, fuse.table
    ensures fuse.Valid()
    ensures Served(old(MountOf(fuse)), MountOf(fuse), DoCreate(p, mode), err, fuse.engine.overlay.reliable)
  {
    ghost var m := MountOf(fuse);
    err := fuse.CreateFile(p, mode);
    Settle(m, MountOf(fuse), DoCreate(p, mode), err);
  }

  method ServeSymlink(fuse: ArtifactFuse, p: Path, text: Bytes) returns (err: Error)
    requires fuse.Valid() && WellFormedCall(DoSymlink(p, text))
    modifies fuse.engine.overlay, fuse.table
    ensures fuse.Valid()
    ensures Served(old(MountOf(fuse)), MountOf(fuse), DoSymlink(p, text), err, fuse.engine.overlay.reliable)
  {
    ghost var m := MountOf(fuse);
    err := fuse.CreateSymlink(p, text);
    Settle(m, MountOf(fuse), DoSymlink(p, text), err);
  }

  method ServeMkdir(fuse: ArtifactFuse, p: Path, mode: nat) returns (err: Error)
    requires fuse.Valid() && WellFormedCall(DoMkdir(p, mode))
    modifies fuse.engine.overlay, fuse.table
    ensures fuse.Valid()
    ensures Served(old(MountOf(fuse)), MountOf(fuse), DoMkdir(p, mode), err, fuse.engine.overlay.reliable)
  {
    ghost var m := MountOf(fuse);
    err := fuse.MkDir(p, mode);
    if err == OK && TreeShaped(m.ov, m.base) && Shows(m, p).None? {
      NewDirectoryIsEmpty(m.ov, fuse.engine.overlay.State(), m.base, p);
    }
    Settle(m, MountOf(fuse), DoMkdir(p, mode), err);
  }

  method ServeWrite(fuse: ArtifactFuse, p: Path, off: nat, data: Bytes) returns (err: Error)
    requires fuse.Valid() && WellFormedCall(DoWrite(p, off, data))
    modifies fuse.engine.overlay
    ensures fuse.Valid()
    ensures Served(old(MountOf(fuse)), MountOf(fuse), DoWrite(p, off, data), err, fuse.engine.overlay.reliable)
  {
    ghost var m := MountOf(fuse);
    err := fuse.engine.Write(p, off, data);
    Settle(m, MountOf(fuse), DoWrite(p, off, data), err);
  }

  method ServeUnlink(fuse: ArtifactFuse, p: Path) returns (err: Error)
    requires fuse.Valid() && WellFormedCall(DoUnlink(p))
    modifies fuse.engine.overlay
    ensures fuse.Valid()
    ensures Served(old(MountOf(fuse)), MountOf(fuse), DoUnlink(p), err, fuse.engine.overlay.reliable)
  {
    ghost var m := MountOf(fuse);
    err := fuse.Unlink(p);
    Settle(m, MountOf(fuse), DoUnlink(p), err);
  }

  method ServeRmdir(fuse: ArtifactFuse, p: Path) returns (err: Error)
    requires fuse.Valid() && WellFormedCall(DoRmdir(p))
    modifies fuse.engine.overlay
    ensures fuse.Valid()
    ensures Served(old(MountOf(fuse)), MountOf(fuse), DoRmdir(p), err, fuse.engine.overlay.reliable)
  {
    ghost var m := MountOf(fuse);
    err := fuse.engine.Rmdir(p);
    Settle(m, MountOf(fuse), DoRmdir(p), err);
  }

  method ServeRename(fuse: ArtifactFuse, oldPath: Path, newPath: Path) returns (err: Error)
    requires fuse.Valid() && WellFormedCall(DoRename(oldPath, newPath))
    modifies fuse.engine.overlay, fuse.table
    ensures fuse.Valid()
    ensures Served(old(MountOf(fuse)), MountOf(fuse), DoRename(oldPath, newPath), err, fuse.engine.overlay.reliable)
  {
    ghost var m := MountOf(fuse);
    err := fuse.Rename(oldPath, newPath);
    Settle(m, MountOf(fuse), DoRename(oldPath, newPath), err);
  }

  method ServeSwitch(fuse: ArtifactFuse, newer: Base) returns (err: Error)
    requires fuse.Valid() && WellFormedCall(DoSwitch(newer))
    modifies fuse.engine, fuse.engine.overlay
    ensures fuse.Valid()
    ensures Served(old(MountOf(fuse)), MountOf(fuse), DoSwitch(newer), err, fuse.engine.overlay.reliable)
  {
    ghost var m := MountOf(fuse);
    err := fuse.engine.Transition(newer);
    Settle(m, MountOf(fuse), DoSwitch(newer), err);
  }

  // ---------- Sessions ----------

  /** The record of the first `i` calls. */
  ghost predicate Recorded(calls: seq<Call>, answers: seq<Error>, trace: seq<Mount>, i: nat, reliable: bool)
    requires forall j :: 0 <= j < |calls| ==> WellFormedCall(calls[j])
  {
    && i <= |calls| && |answers| == i && |trace| == i + 1
    && forall j :: 0 <= j < i ==> Served(trace[j], trace[j + 1], calls[j], answers[j], reliable)
  }

  lemma RecordedOneMore(calls: seq<Call>, answers: seq<Error>, trace: seq<Mount>, i: nat, answer: Error,
      next: Mount, reliable: bool)
    requires forall j :: 0 <= j < |calls| ==> WellFormedCall(calls[j])
    requires Recorded(calls, answers, trace, i, reliable) && i < |calls|
    requires Served(trace[i], next, calls[i], answer, reliable)
    ensures Recorded(calls, answers + [answer], trace + [next], i + 1, reliable)
  {
    var more, longer := answers + [answer], trace + [next];
    forall j | 0 <= j < i + 1 ensures Served(longer[j], longer[j + 1], calls[j], more[j], reliable) {
      assert j < i ==> Served(trace[j], trace[j + 1], calls[j], answers[j], reliable);
    }
  }

  /** Over every sequence of calls and generation switches, each call does what Served says. */
  method Session(fuse: ArtifactFuse, calls: seq<Call>) returns (answers: seq<Error>, trace: seq<Mount>)
    requires fuse.Valid() && forall j :: 0 <= j < |calls| ==> WellFormedCall(calls[j])
    modifies fuse.engine, fuse.engine.overlay, fuse.table
    ensures fuse.Valid() && Recorded(calls, answers, trace, |calls|, fuse.engine.overlay.reliable)
    ensures trace[0] == old(MountOf(fuse)) && trace[|calls|] == MountOf(fuse)
  {
    answers, trace := [], [MountOf(fuse)];
    for i := 0 to |calls|
      invariant fuse.Valid() && Recorded(calls, answers, trace, i, fuse.engine.overlay.reliable)
      invariant trace[0] == old(MountOf(fuse)) && trace[i] == MountOf(fuse)
    {
      var err := Serve(fuse, calls[i]);
      RecordedOneMore(calls, answers, trace, i, err, MountOf(fuse), fuse.engine.overlay.reliable);
      answers, trace := answers + [err], trace + [MountOf(fuse)];
    }
  }

  ghost predicate TreesUpTo(trace: seq<Mount>, i: nat)
    requires i < |trace|
  {
    forall j :: 0 <= j <= i ==> TreeShaped(trace[j].ov, trace[j].base)
  }

  ghost predicate FitUpTo(calls: seq<Call>, trace: seq<Mount>, i: nat)
    requires i <= |calls| && i < |trace| && forall j :: 0 <= j < |calls| ==> WellFormedCall(calls[j])
  {
    forall j :: 0 <= j < i ==> Fits(trace[j], calls[j]) || Unnoticed(trace[j], trace[j + 1])
  }

  lemma OneMoreTree(trace: seq<Mount>, i: nat)
    requires 0 < i < |trace|
    ensures TreesUpTo(trace, i) <==> TreesUpTo(trace, i - 1) && TreeShaped(trace[i].ov, trace[i].base)
  {
  }

  lemma OneMoreFit(calls: seq<Call>, trace: seq<Mount>, i: nat)
    requires 0 < i <= |calls| && i < |trace| && forall j :: 0 <= j < |calls| ==> WellFormedCall(calls[j])
    ensures FitUpTo(calls, trace, i) <==>
              FitUpTo(calls, trace, i - 1) && (Fits(trace[i - 1], calls[i - 1]) || Unnoticed(trace[i - 1], trace[i]))
  {
  }

  /**
   * The view was a tree throughout, and with it every directory rename exact, if and only if it
   * was one at the start and every call that showed fitted.
   */
  lemma {:induction false} SessionIsTreeIff(calls: seq<Call>, answers: seq<Error>, trace: seq<Mount>, i: nat,
      reliable: bool)
    requires forall j :: 0 <= j < |calls| ==> WellFormedCall(calls[j])
    requires Recorded(calls, answers, trace, |calls|, reliable) && i <= |calls|
    ensures TreesUpTo(trace, i) <==> TreeShaped(trace[0].ov, trace[0].base) && FitUpTo(calls, trace, i)
  {
    if i > 0 {
      SessionIsTreeIff(calls, answers, trace, i - 1, reliable);
      OneMoreTree(trace, i);
      OneMoreFit(calls, trace, i);
      assert Served(trace[i - 1], trace[i], calls[i - 1], answers[i - 1], reliable);
    }
  }

  /** Two mounts that nobody can tell apart. */
  ghost predicate Alike(m: Mount, n: Mount) {
    m.base == n.base && m.table == n.table && Unseen(m.ov, n.ov, m.base)
  }

  /**
   * What a tree shows, and which of its rows are bare, decide all that a successful call makes of
   * it: within a generation the rest of the table has no say.
   */
  lemma AlikeStaysAlike(m: Mount, n: Mount, call: Call, m': Mount, n': Mount)
    requires Alike(m, n) && TreeShaped(m.ov, m.base) && WellFormedCall(call) && !call.DoSwitch?
    requires call.DoWrite? ==> ShowsFile(m.ov, m.base, call.p)
    requires Done(m, m', call) && Done(n, n', call)
    ensures Alike(m', n')
  {
    if call.DoRename? && call.oldPath != call.newPath {
      AlikeRenamesAlike(m, n, call.oldPath, call.newPath, m', n');
    }
  }

  lemma AlikeRenamesAlike(m: Mount, n: Mount, oldPath: Path, newPath: Path, m': Mount, n': Mount)
    requires Alike(m, n) && TreeShaped(m.ov, m.base) && oldPath != newPath
    requires Renamed(m, m', oldPath, newPath) && Renamed(n, n', oldPath, newPath)
    ensures Alike(m', n')
  {
    assert TreeShaped(n.ov, n.base);
    assert Resolve(m.ov, m.base, oldPath) == Resolve(n.ov, n.base, oldPath);
    if Resolve(m.ov, m.base, oldPath) == Some(DirNode) {
      forall q ensures Resolve(m'.ov, m.base, q) == Resolve(n'.ov, n.base, q) && (Bare(m'.ov, q) <==> Bare(n'.ov, q)) {
        var p := if Under(q, newPath) then Rebase(q, newPath, oldPath) else q;
        assert Resolve(m.ov, m.base, p) == Resolve(n.ov, n.base, p) && (Bare(m.ov, p) <==> Bare(n.ov, p));
      }
    } else {
      assert Bare(m.ov, oldPath) <==> Bare(n.ov, oldPath);
      assert LeftBehind(m.ov, m.base, oldPath) == LeftBehind(n.ov, n.base, oldPath);
      forall q ensures Bare(m'.ov, q) <==> Bare(n'.ov, q) {
        assert Bare(m.ov, q) <==> Bare(n.ov, q);
      }
    }
  }

  /**
   * Saving by way of a temporary file: create it, rename it onto the file, and rename that away.
   * Nothing of the file is left, whatever the base tracks there.
   */
  lemma SavedFileMovesAway(m0: Mount, m1: Mount, m2: Mount, m3: Mount, t: Path, a: Path, b: Path, mode: nat)
    requires t != a && a != b && t != ROOT && a != ROOT && b != ROOT
    requires Done(m0, m1, DoCreate(t, mode)) && Done(m1, m2, DoRename(t, a)) && Done(m2, m3, DoRename(a, b))
    ensures Shows(m3, a) == None && Shows(m3, b) == Some(FileNode(Data([]), Perm(mode)))
  {
    RenamedTwiceLeavesNothing(m1.ov, m2.ov, m3.ov, m0.base, t, a, b);
  }

  // ---------- What stays odd ----------

  /** A tracked file after a write: copied up, then spliced. */
  function Edited(base: Base, f: Path, off: nat, data: Bytes): Overlay
    requires f in base && base[f].typ.FileType? && base[f].oid.Blob?
  {
    WriteFile(CopyUp(Overlay(map[], map[], 0), f, base[f], Some(base[f].oid.content)).ov, f, off, data).ov
  }

  lemma EditedShows(base: Base, f: Path, off: nat, data: Bytes)
    requires WellFormedBase(base) && f in base && base[f].typ.FileType? && base[f].oid.Blob?
    ensures var ov := Edited(base, f, off, data);
            && Owned(ov) && ov.rows.Keys == {f} && ov.rows[f].kind.Modify?
            && LayerAt(ov, f) == Shown(FileNode(Data(Spliced(base[f].oid.content, off, data)), Perm(base[f].mode)))
  {
    var empty := Overlay(map[], map[], 0);
    CopyUpShows(empty, f, base[f], Some(base[f].oid.content));
    WriteFileShows(CopyUp(empty, f, base[f], Some(base[f].oid.content)).ov, f, off, data);
  }

  /**
   * A generation switch can break the tree: on every base, an edit outlives the directory it was
   * made in when the next generation no longer has it.
   */
  lemma SwitchOrphans(base: Base, newer: Base, f: Path, off: nat, data: Bytes)
    requires WellFormedBase(base) && f in base && base[f].typ.FileType? && base[f].oid.Blob?
    requires WellFormedBase(newer) && f != ROOT && Parent(f) != ROOT && Parent(f) !in newer
    ensures var after := Reconcile(Edited(base, f, off, data), newer);
            && Resolve(after, newer, f) == Some(FileNode(Data(Spliced(base[f].oid.content, off, data)),
               Perm(base[f].mode)))
            && Resolve(after, newer, Parent(f)) == None
            && !TreeShaped(after, newer)
  {
    EditedShows(base, f, off, data);
    var ov := Edited(base, f, off, data);
    assert f !in newer && Parent(f) !in ov.rows;
    SurvivorKeepsLayer(ov, newer, f);
  }

  /**
   * Within one generation a write can do so.  A file is opened, a switch takes it and its
   * directory away, and a write through the handle creates it anew where there is no directory.
   */
  lemma OldHandleOrphans(base: Base, newer: Base, f: Path, off: nat, data: Bytes)
    requires WellFormedBase(base) && f in base && base[f].typ.FileType?
    requires WellFormedBase(newer) && f != ROOT && Parent(f) != ROOT && Parent(f) !in newer
    ensures var switched := Reconcile(Overlay(map[], map[], 0), newer);
            var after := WriteFile(CreateFile(switched, f, 420).ov, f, off, data).ov;
            && TreeShaped(switched, newer) && WriteStartsFrom(switched, newer, f) == Some(FileNode(Data([]), 420))
            && Resolve(after, newer, f) == Some(FileNode(Data(Spliced([], off, data)), 420))
            && Resolve(after, newer, Parent(f)) == None
            && !TreeShaped(after, newer)
  {
    var switched := Reconcile(Overlay(map[], map[], 0), newer);
    assert switched == Overlay(map[], map[], 0);
    CleanMountIsTree(switched, newer);
    assert f !in newer;
    CreateFileShows(switched, f, 420);
    WriteFileShows(CreateFile(switched, f, 420).ov, f, off, data);
  }

  /**
   * What a directory rename carries is not marked as changed from the base nodes it lands on.
   * When such a file is renamed on, the base node shows again, exactly if the row was bare or a
   * tracked link.
   */
  lemma CarriedThenRenamed(s0: Overlay, s1: Overlay, s2: Overlay, base: Base, oldPath: Path, newPath: Path, p: Path,
      to: Path)
    requires TreeShaped(s0, base) && Resolve(s0, base, oldPath) == Some(DirNode)
    requires RenamedAs(s0, s1, base, oldPath, newPath) && Under(p, oldPath)
    requires Resolve(s0, base, p).Some? && Resolve(s0, base, p) != Some(DirNode)
    requires var q := Rebase(p, oldPath, newPath); q != to && RenamedAs(s1, s2, base, q, to)
    ensures var q := Rebase(p, oldPath, newPath);
            Resolve(s2, base, q) ==
              if q in base && CarriedBare(s0, base, p) then Some(BaseShows(base[q])) else None
  {
    RebaseBack(p, oldPath, newPath);
    assert Bare(s1, Rebase(p, oldPath, newPath)) <==> CarriedBare(s0, base, p);
  }

  /** A tracked directory is emptied and removed, and another with a file of the same name takes its place. */
  function ReplacedDirectory(base: Base, d: Path, name: string, e: Path, mode: nat): Overlay {
    var gone := Remove(Remove(Overlay(map[], map[], 0), d + [name]).ov, d).ov;
    TreeRenamed(CreateFile(MakeDir(gone, e, mode).ov, e + [name], mode).ov, base, e, d)
  }

  lemma ReplacedDirectoryRow(base: Base, d: Path, name: string, e: Path, mode: nat)
    requires Apart(d, e) && d != ROOT && e != ROOT
    ensures var ov := ReplacedDirectory(base, d, name, e, mode);
            Live(ov, d + [name]) && ov.rows[d + [name]].kind.Create?
  {
    var gone := Remove(Remove(Overlay(map[], map[], 0), d + [name]).ov, d).ov;
    var ov := CreateFile(MakeDir(gone, e, mode).ov, e + [name], mode).ov;
    assert ov.rows.Keys == {d + [name], d, e, e + [name]};
    assert e + [name] != e && d + [name] != d && e + [name] != d + [name] && e + [name] != d;
    assert !Live(ov, d) && !Live(ov, d + [name]);
    if Under(e + [name], d) { SharedPathNests(e + [name], e, d); }
    assert LiveUnder(ov, d) == {};
    assert TreeMoveError(ov, e, d) == OK;
    assert Under(d + [name], d) && Rebase(d + [name], d, e) == e + [name];
    TreeRowAt(ov, e, d, BaseUnder(base, e), BaseUnder(base, d), d + [name]);
  }

  /** On every base that happens: renaming the new file away brings the old one back. */
  lemma CarriedFileUncovers(base: Base, d: Path, name: string, e: Path, to: Path, mode: nat)
    requires WellFormedBase(base) && d + [name] in base && base[d + [name]].typ.FileType?
    requires Apart(d, e) && d != ROOT && e != ROOT && to != d + [name]
    ensures var ov := ReplacedDirectory(base, d, name, e, mode);
            Resolve(RenameRow(ov, d + [name], to).ov, base, d + [name]) == Some(BaseShows(base[d + [name]]))
  {
    ReplacedDirectoryRow(base, d, name, e, mode);
  }

  /** Making a directory, using it, and reusing its name for a file that is then renamed away. */
  function GhostDirectoryCalls(p: Path, name: string, q: Path, mode: nat): Overlay {
    var made := CreateFile(MakeDir(Overlay(map[], map[], 0), p, mode).ov, p + [name], mode).ov;
    var removed := Remove(Remove(made, p + [name]).ov, p).ov;
    RenameRow(CreateFile(removed, p, mode).ov, p, q).ov
  }

  /** The whiteout below outlives the row above it: the name is listed as a directory that cannot be looked up. */
  lemma GhostDirectory(base: Base, p: Path, name: string, q: Path, mode: nat)
    requires p !in base && p != q && p + [name] != q
    ensures var ov := GhostDirectoryCalls(p, name, q, mode);
            OrphanName(ov, base, p) && Resolve(ov, base, p) == None && ChildAt(ov, base, p) == Some(Synthetic)
  {
    var ov := GhostDirectoryCalls(p, name, q, mode);
    assert p + [name] in ov.rows && StrictlyUnder(p + [name], p);
  }
}
