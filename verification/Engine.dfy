/**
 * The merged filesystem engine over one overlay store and one snapshot generation.
 *
 * Contracts speak about the view a user has before and after; `*` stands for an I/O, database or
 * hydration failure, which is met only when the store is not reliable.
 */
module Engines {
  import opened Paths
  import opened Model
  import opened Overlays
  import opened OverlayEffects
  import opened Reconciles
  import opened OverlayStore
  import opened Listing
  import opened RenameViews
  import opened SwitchViews
  import opened TreeWalks

  /** What POSIX asks of a directory rename's destination. */
  ghost predicate EmptyOrAbsent(ov: Overlay, base: Base, p: Path) {
    && (Resolve(ov, base, p) == None || Resolve(ov, base, p) == Some(DirNode))
    && forall q :: StrictlyUnder(q, p) ==> Resolve(ov, base, q) == None
  }

  lemma ListedBelow(ov: Overlay, base: Base, path: Path, name: string)
    requires ChildAt(ov, base, path + [name]).Some? && Resolve(ov, base, path) == Some(DirNode)
    ensures !EmptyOrAbsent(ov, base, path) || ListsOrphan(ov, base, path)
  {
    ListedIffResolves(ov, base, path + [name]);
    assert StrictlyUnder(path + [name], path) && Parent(path + [name]) == path;
  }

  lemma EmptyListingIsEmpty(ov: Overlay, base: Base, path: Path)
    requires TreeShaped(ov, base) && Resolve(ov, base, path) == Some(DirNode)
    requires forall name :: ChildAt(ov, base, path + [name]).None?
    ensures EmptyOrAbsent(ov, base, path) && !ListsOrphan(ov, base, path)
  {
    forall q | StrictlyUnder(q, path) ensures Resolve(ov, base, q) == None {
      var c := path + [q[|path|]];
      FirstStep(q, path);
      if Resolve(ov, base, q).Some? { VisibleAncestors(ov, base, c, q); }
      assert ChildAt(ov, base, c).None?;
    }
    EmptyListsNothing(ov, base, path);
  }

  lemma EmptyListsNothing(ov: Overlay, base: Base, path: Path)
    requires EmptyOrAbsent(ov, base, path)
    requires Resolve(ov, base, path) == Some(DirNode) ==> forall name :: ChildAt(ov, base, path + [name]).None?
    ensures !ListsOrphan(ov, base, path)
  {
    forall c | StrictlyUnder(c, path) && Resolve(ov, base, Parent(c)) == Some(DirNode)
      ensures !OrphanName(ov, base, c)
    {
      ParentUnder(c, path);
      UnderSplits(Parent(c), path);
      assert c == path + [BaseName(c)];
    }
  }

  method CheckDestination(ov: Overlay, base: Base, newPath: Path) returns (err: Error)
    ensures err in {OK, Invalid, Exist}
    ensures err == OK && TreeShaped(ov, base) ==> EmptyOrAbsent(ov, base, newPath) && !ListsOrphan(ov, base, newPath)
    ensures err == Invalid ==> Resolve(ov, base, newPath).Some? && Resolve(ov, base, newPath) != Some(DirNode)
    ensures err == Exist ==> !EmptyOrAbsent(ov, base, newPath) || ListsOrphan(ov, base, newPath)
  {
    var destination := Lookup(ov, base, newPath);
    if destination.None? {
      if TreeShaped(ov, base) {
        forall q | StrictlyUnder(q, newPath)
          ensures Resolve(ov, base, q) == None
        {
          NothingBelow(ov, base, newPath, q);
        }
        EmptyListsNothing(ov, base, newPath);
      }
      return OK;
    }
    if !destination.value.Type().DirType? { return Invalid; }
    var matched := ListByPrefix(ov, newPath);
    var children := ReaddirTyped(ov, base, newPath, matched);
    if children != [] {
      ListedBelow(ov, base, newPath, children[0].name);
      return Exist;
    }
    if TreeShaped(ov, base) { EmptyListingIsEmpty(ov, base, newPath); }
    return OK;
  }

  /** A base file or link that can be copied up: its content can be fetched and fits in a row. */
  predicate CanCopyUp(n: BaseNode) {
    if n.typ.LinkType? then n.oid.Blob? && |n.oid.content| <= MAX_SYMLINK_TARGET_BYTES else !n.oid.Other?
  }

  predicate Promotable(node: Resolved) {
    node.InOverlay? || node.n.typ.DirType? || CanCopyUp(node.n)
  }

  /** A path that has a row or can be given one. */
  predicate Rowable(ov: Overlay, base: Base, p: Path) {
    p in ov.rows || (p in base && CanCopyUp(base[p]))
  }

  /** A visible directory that can move to an absent or empty place outside itself, together with all it shows. */
  ghost predicate Renamable(ov: Overlay, base: Base, oldPath: Path, newPath: Path) {
    && !InvalidTreeMove(oldPath, newPath)
    && Resolve(ov, base, oldPath) == Some(DirNode)
    && EmptyOrAbsent(ov, base, newPath)
    && forall p :: Under(p, oldPath) && Lookup(ov, base, p).Some? ==> Promotable(Lookup(ov, base, p).value)
  }

  ghost predicate AllPromotable(visited: seq<Visited>) {
    forall i :: 0 <= i < |visited| ==> Promotable(visited[i].node)
  }

  /** The first `i` visited nodes have live rows, and every added row stands over a base node that could be promoted. */
  ghost predicate PromotedFirst(start: Overlay, now: Overlay, base: Base, visited: seq<Visited>, i: nat)
    requires i <= |visited|
  {
    && (forall p :: Live(start, p) ==> Live(now, p))
    && (forall j :: 0 <= j < i ==> Live(now, visited[j].path) && Promotable(visited[j].node))
    && (forall p :: p in now.rows && p !in start.rows ==> p in base && Promotable(InBase(base[p])))
    && SameBare(start, now)
  }

  lemma PromotedOneMore(start: Overlay, before: Overlay, now: Overlay, base: Base, root: Path, visited: seq<Visited>,
      i: nat)
    requires i < |visited| && Truthful(start, base, root, visited) && PromotedFirst(start, before, base, visited, i)
    requires SameBare(before, now) && forall p :: Live(before, p) ==> Live(now, p)
    requires forall p :: p in now.rows ==> p in before.rows || (p == visited[i].path && visited[i].node.InBase?)
    requires visited[i].node.InOverlay? ==> now == before
    requires visited[i].node.InBase? ==> Live(now, visited[i].path)
    requires visited[i].node.InBase? && visited[i].path !in before.rows ==> Promotable(visited[i].node)
    ensures PromotedFirst(start, now, base, visited, i + 1)
  {
    var p, node := visited[i].path, visited[i].node;
    assert Lookup(start, base, p) == Some(node);
    assert node.InBase? ==> p !in start.rows && p in base && base[p] == node.n;
  }

  /** In a tree-shaped view the walk has met everything that must be promoted. */
  lemma AllPromotableIff(ov: Overlay, base: Base, root: Path, visited: seq<Visited>)
    requires Truthful(ov, base, root, visited) && Complete(ov, base, root, visited)
    ensures AllPromotable(visited) <==>
              forall p :: Under(p, root) && Lookup(ov, base, p).Some? ==> Promotable(Lookup(ov, base, p).value)
  {
    if AllPromotable(visited) {
      forall p | Under(p, root) && Lookup(ov, base, p).Some? ensures Promotable(Lookup(ov, base, p).value) {
        assert Resolve(ov, base, p).Some? && Visits(visited, p);
      }
    }
  }

  /** The store's tree rename after promotion, seen from before promotion. */
  lemma PromotedMove(start: Overlay, promoted: Overlay, after: Overlay, base: Base, oldPath: Path, newPath: Path,
                     visited: seq<Visited>, err: Error, reliable: bool)
    requires Owned(promoted) && oldPath != newPath && SameView(start, promoted, base) && SameBare(start, promoted)
    requires TreeShaped(start, base) ==> Complete(start, base, oldPath, visited)
    requires forall i :: 0 <= i < |visited| ==> Live(promoted, visited[i].path)
    requires Outcome(reliable, promoted, after, err,
               RenameTree(promoted, oldPath, newPath, BaseUnder(base, oldPath), BaseUnder(base, newPath)))
    ensures err != OK ==> after == promoted
    ensures err == Exist ==> !EmptyOrAbsent(start, base, newPath)
    ensures err == OK ==> Apart(oldPath, newPath)
    ensures err == OK && TreeShaped(start, base) ==>
              TreeMoved(start, after, base, oldPath, newPath) && TreeLanded(start, after, base, oldPath, newPath)
  {
    if err == Exist {
      var q :| q in LiveUnder(promoted, newPath) && q != newPath;
      UnderSplits(q, newPath);
      assert Resolve(start, base, q) == Resolve(promoted, base, q);
    }
    if err == OK {
      TreeMoveApart(promoted, oldPath, newPath);
      if TreeShaped(start, base) {
        forall q | Under(q, oldPath) && Resolve(promoted, base, q).Some? ensures Live(promoted, q) {
          assert Resolve(start, base, q).Some?;
          assert Visits(visited, q);
        }
        TreeMoveExact(promoted, base, oldPath, newPath);
        RenameTreeLands(promoted, base, oldPath, newPath);
        TreeMovedFromSameView(start, promoted, after, base, oldPath, newPath);
      }
    }
  }

  /** After promotion a reliable store refuses exactly what is not a directory, or is in the way. */
  lemma PromotedMoveSucceeds(start: Overlay, promoted: Overlay, base: Base, oldPath: Path, newPath: Path,
      visited: seq<Visited>)
    requires Owned(promoted) && SameView(start, promoted, base)
    requires Complete(start, base, oldPath, visited) && Resolve(start, base, oldPath).Some?
    requires forall i :: 0 <= i < |visited| ==> Live(promoted, visited[i].path)
    requires !InvalidTreeMove(oldPath, newPath) && EmptyOrAbsent(start, base, newPath)
    ensures TreeMoveError(promoted, oldPath, newPath) == OK <==> Resolve(start, base, oldPath) == Some(DirNode)
  {
    assert Visits(visited, oldPath);
    assert Resolve(promoted, base, oldPath) == Resolve(start, base, oldPath);
    assert Resolve(promoted, base, newPath) == Resolve(start, base, newPath);
    forall q | q in LiveUnder(promoted, newPath) ensures q == newPath {
      UnderSplits(q, newPath);
      assert Resolve(start, base, q) == Resolve(promoted, base, q);
    }
  }

  /** The node moves; the old path shows the base node its row uncovers, and only then is the rename not exact. */
  ghost predicate LeafRenamed(before: Overlay, after: Overlay, base: Base, oldPath: Path, newPath: Path) {
    && NodeMovedLeaving(before, after, base, oldPath, newPath, LeftBehind(before, base, oldPath))
    && (NodeMoved(before, after, base, oldPath, newPath) <==> !UncoversBase(before, base, oldPath))
  }

  predicate ShowsLink(ov: Overlay, base: Base, p: Path) {
    Resolve(ov, base, p).Some? && Resolve(ov, base, p).value.LinkNode?
  }

  /**
   * What is left at the new path.  A created file or a link with a row is marked as changed from
   * the base node it lands on, and then it is bare no more; a link that had no row of its own yet
   * is not marked, and one over a node without object id stays bare.
   */
  ghost predicate Landed(before: Overlay, after: Overlay, base: Base, oldPath: Path, newPath: Path, hadRow: bool) {
    && Live(after, newPath)
    && (forall q :: Bare(after, q) <==>
          if q == newPath then LandsBare(before, base, oldPath, newPath, hadRow)
          else q != oldPath && Bare(before, q))
    && (hadRow && newPath in base && (ShowsLink(before, base, oldPath) || Bare(before, oldPath)) ==>
          SameSource(after.rows[newPath], base[newPath]))
  }

  predicate LandsBare(before: Overlay, base: Base, oldPath: Path, newPath: Path, hadRow: bool) {
    if ShowsLink(before, base, oldPath) then newPath in base && hadRow ==> base[newPath].oid.NoOid?
    else Bare(before, oldPath) && newPath !in base
  }

  /** And below it after a directory rename: what was bare is, and so is what was a tracked link. */
  ghost predicate TreeLanded(before: Overlay, after: Overlay, base: Base, oldPath: Path, newPath: Path) {
    forall q :: Bare(after, q) <==>
      if Under(q, newPath) then CarriedBare(before, base, Rebase(q, newPath, oldPath))
      else !Under(q, oldPath) && Bare(before, q)
  }

  predicate CarriedBare(before: Overlay, base: Base, p: Path) {
    Bare(before, p) || (ShowsLink(before, base, p) && p in base)
  }

  /** The tree rename on a table in which everything visible below the old path has a row. */
  lemma RenameTreeLands(ov: Overlay, base: Base, oldPath: Path, newPath: Path)
    requires Owned(ov) && oldPath != newPath && TreeMoveError(ov, oldPath, newPath) == OK
    requires forall q :: Under(q, oldPath) && Resolve(ov, base, q).Some? ==> Live(ov, q)
    ensures TreeLanded(ov, TreeRenamed(ov, base, oldPath, newPath), base, oldPath, newPath)
  {
    forall q
      ensures Bare(TreeRenamed(ov, base, oldPath, newPath), q) <==>
                if Under(q, newPath) then CarriedBare(ov, base, Rebase(q, newPath, oldPath))
                else !Under(q, oldPath) && Bare(ov, q)
    {
      TreeMoveApart(ov, oldPath, newPath);
      TreeRowAt(ov, oldPath, newPath, BaseUnder(base, oldPath), BaseUnder(base, newPath), q);
      if Under(q, newPath) {
        RebaseBack(q, newPath, oldPath);
        CarriedIsBare(ov, base, oldPath, newPath, q);
      }
    }
  }

  function TreeRenamed(ov: Overlay, base: Base, oldPath: Path, newPath: Path): Overlay {
    RenameTree(ov, oldPath, newPath, BaseUnder(base, oldPath), BaseUnder(base, newPath)).ov
  }

  lemma CarriedRowIsBare(e: Entry, p: Path, tracked: bool)
    ensures LeavesNoWhiteout(CarriedRow(e, p, tracked)) <==> LeavesNoWhiteout(e) || (e.kind.Symlink? && tracked)
  {
  }

  lemma LiveRowShowsLink(ov: Overlay, base: Base, p: Path)
    requires Live(ov, p)
    ensures ShowsLink(ov, base, p) <==> ov.rows[p].kind.Symlink?
  {
  }

  lemma CarriedIsBare(ov: Overlay, base: Base, oldPath: Path, newPath: Path, q: Path)
    requires oldPath != newPath && TreeMoveError(ov, oldPath, newPath) == OK && Apart(oldPath, newPath)
    requires forall p :: Under(p, oldPath) && Resolve(ov, base, p).Some? ==> Live(ov, p)
    requires Under(q, newPath) && Under(Rebase(q, newPath, oldPath), oldPath)
    ensures Bare(TreeRenamed(ov, base, oldPath, newPath), q) <==> CarriedBare(ov, base, Rebase(q, newPath, oldPath))
  {
    var p := Rebase(q, newPath, oldPath);
    TreeRowAt(ov, oldPath, newPath, BaseUnder(base, oldPath), BaseUnder(base, newPath), q);
    if Live(ov, p) {
      CarriedRowIsBare(ov.rows[p], p, p in BaseUnder(base, oldPath));
      LiveRowShowsLink(ov, base, p);
    } else {
      assert Resolve(ov, base, p) == None;
    }
  }

  /** A row rename keeps what is bare; creates and links arrive bare. */
  lemma RowRenameBares(ov: Overlay, oldPath: Path, newPath: Path)
    requires Live(ov, oldPath) && oldPath != newPath && !ov.rows[oldPath].kind.Mkdir?
    ensures var after := RenameRow(ov, oldPath, newPath).ov;
            && Live(after, newPath)
            && forall q :: Bare(after, q) <==>
                 if q == newPath then ov.rows[oldPath].kind in {Kind.Create, Kind.Symlink}
                 else q != oldPath && Bare(ov, q)
  {
  }

  lemma RowRenameLands(start: Overlay, promoted: Overlay, base: Base, oldPath: Path, newPath: Path)
    requires Owned(promoted) && Live(promoted, oldPath) && !promoted.rows[oldPath].kind.Mkdir? && oldPath != newPath
    requires SameBare(start, promoted) && Resolve(promoted, base, oldPath) == Resolve(start, base, oldPath)
    requires newPath in base && oldPath in start.rows ==>
               promoted == start && start.rows[oldPath].kind !in {Kind.Create, Kind.Symlink}
    ensures Landed(start, RenameRow(promoted, oldPath, newPath).ov, base, oldPath, newPath, oldPath in start.rows)
  {
    RowRenameBares(promoted, oldPath, newPath);
    assert RowOwned(promoted.rows[oldPath], promoted.files);
    assert ShowsLink(start, base, oldPath) <==> promoted.rows[oldPath].kind.Symlink?;
    assert Bare(promoted, oldPath) <==> Bare(start, oldPath);
  }

  lemma LeafRenamedFromMove(before: Overlay, after: Overlay, base: Base, oldPath: Path, newPath: Path)
    requires Live(before, oldPath) && oldPath != newPath
    requires MovesRow(before, after, oldPath, newPath, !LeavesNoWhiteout(before.rows[oldPath]))
    ensures LeafRenamed(before, after, base, oldPath, newPath)
  {
    RowMoveLeaves(before, after, base, oldPath, newPath);
  }

  lemma LeafRenamedFromSameView(start: Overlay, promoted: Overlay, after: Overlay, base: Base, oldPath: Path,
      newPath: Path)
    requires SameView(start, promoted, base) && LeafRenamed(promoted, after, base, oldPath, newPath)
    requires LeftBehind(promoted, base, oldPath) == LeftBehind(start, base, oldPath)
    ensures LeafRenamed(start, after, base, oldPath, newPath)
  {
    assert UncoversBase(start, base, oldPath) <==> UncoversBase(promoted, base, oldPath);
  }

  lemma RemovalKeepsShape(before: Overlay, after: Overlay, base: Base, path: Path)
    requires TreeShaped(before, base) && path != ROOT
    requires forall name :: ChildAt(before, base, path + [name]).None?
    requires Resolve(after, base, path) == None
    requires forall q :: q != path ==> Resolve(after, base, q) == Resolve(before, base, q)
    ensures TreeShaped(after, base)
  {
    forall q | q != ROOT && Resolve(after, base, q).Some? ensures Resolve(after, base, Parent(q)) == Some(DirNode) {
      if Parent(q) == path { UnlistedIsInvisible(before, base, path, q); }
    }
  }

  lemma UnlistedIsInvisible(ov: Overlay, base: Base, path: Path, q: Path)
    requires q != ROOT && Parent(q) == path && ChildAt(ov, base, path + [BaseName(q)]).None?
    ensures Resolve(ov, base, q) == None
  {
    assert q == path + [BaseName(q)];
  }

  lemma TreeMovedFromSameView(start: Overlay, promoted: Overlay, after: Overlay, base: Base, oldPath: Path,
      newPath: Path)
    requires SameView(start, promoted, base) && TreeMoved(promoted, after, base, oldPath, newPath)
    ensures TreeMoved(start, after, base, oldPath, newPath)
  {
  }

  /** One path shows something new, every other path what it showed. */
  ghost predicate Now(before: Overlay, after: Overlay, base: Base, path: Path, shows: Option<Node>) {
    && Resolve(after, base, path) == shows
    && forall q :: q != path ==> Resolve(after, base, q) == Resolve(before, base, q)
  }

  /** What a write starts from: a visible file, a new empty one, or an empty one in place of a base directory. */
  function WriteStartsFrom(ov: Overlay, base: Base, path: Path): Option<Node> {
    match Resolve(ov, base, path)
    case None => if path in ov.rows then None else Some(FileNode(Data([]), 420))
    case Some(DirNode) =>
      // only a directory without an object id is copied up
      if path in ov.rows || !base[path].oid.NoOid? then None else Some(FileNode(Data([]), Perm(base[path].mode)))
    case Some(LinkNode(_)) => None
    case Some(node) => Some(node)
  }

  /** A write to what is nowhere creates a file; any other leaves its row as bare as it was. */
  predicate WritesBare(ov: Overlay, base: Base, path: Path) {
    Bare(ov, path) || (path !in ov.rows && path !in base)
  }

  /** A write has put its data in, over what it started from. */
  ghost predicate Written(before: Overlay, after: Overlay, base: Base, path: Path, off: nat, data: Bytes) {
    && (match WriteStartsFrom(before, base, path)
        case Some(FileNode(Data(was), perm)) =>
          Now(before, after, base, path, Some(FileNode(Data(Spliced(was, off, data)), perm)))
        case _ => false)
    && BareNow(before, after, path, WritesBare(before, base, path))
  }

  /** It has only made the file it needed. */
  ghost predicate Begun(before: Overlay, after: Overlay, base: Base, path: Path) {
    && path !in before.rows && WriteStartsFrom(before, base, path).Some?
    && Now(before, after, base, path, WriteStartsFrom(before, base, path))
    && BareNow(before, after, path, WritesBare(before, base, path))
  }

  /** There is a row to write to. */
  ghost predicate Writable(before: Overlay, after: Overlay, base: Base, path: Path) {
    && path in after.rows && (path !in before.rows && path in base ==> CanCopyUp(base[path]))
    && Now(before, after, base, path,
           if path in before.rows then Resolve(before, base, path)
           else Some(if path in base then CopiedUp(base[path]) else FileNode(Data([]), 420)))
    && BareNow(before, after, path, WritesBare(before, base, path))
  }

  lemma WriteKeepsBare(ov: Overlay, path: Path, off: nat, data: Bytes)
    requires Owned(ov)
    ensures SameBare(ov, WriteFile(ov, path, off, data).ov)
  {
    assert path in ov.rows ==> RowOwned(ov.rows[path], ov.files);
  }

  predicate ShowsFile(ov: Overlay, base: Base, p: Path) {
    Resolve(ov, base, p).Some? && Resolve(ov, base, p).value.FileNode?
  }

  lemma WritableStarts(start: Overlay, before: Overlay, base: Base, path: Path)
    requires WellFormedBase(base) && Writable(start, before, base, path)
    ensures if ShowsFile(before, base, path) then WriteStartsFrom(start, base, path) == Resolve(before, base, path)
            else Unseen(start, before, base) && WriteStartsFrom(start, base, path) == None
  {
    if path in start.rows {
      assert Unseen(start, before, base);
    } else if path in base {
      assert WellFormedNode(base[path]) && Resolve(start, base, path) == Some(BaseShows(base[path]));
      if base[path].typ.LinkType? { assert Unseen(start, before, base); }
    }
  }

  lemma WriteEnds(start: Overlay, before: Overlay, after: Overlay, base: Base, path: Path, off: nat, data: Bytes,
      err: Error)
    requires WellFormedBase(base) && Owned(before) && Writable(start, before, base, path)
    requires SameBare(before, WriteFile(before, path, off, data).ov)
    requires Outcome(false, before, after, err, WriteFile(before, path, off, data))
    ensures if err == OK then Written(start, after, base, path, off, data)
            else Unseen(start, after, base) || Begun(start, after, base, path)
  {
    WritableStarts(start, before, base, path);
    WriteFileShows(before, path, off, data);
  }

  /** Nobody can tell the difference, now or after a later rename. */
  ghost predicate Unseen(before: Overlay, after: Overlay, base: Base) {
    SameView(before, after, base) && SameBare(before, after)
  }

  /** The directory's row has the mode asked for, or 0755 in place of Git's. */
  predicate HasDirectoryRow(ov: Overlay, path: Path, mode: nat) {
    path in ov.rows && ov.rows[path].kind.Mkdir? && ov.rows[path].mode == NormalizeGitDirMode(mode)
  }

  /** Copying the path up would not turn a directory into a file. */
  predicate CopyableOrAbsent(ov: Overlay, base: Base, p: Path) {
    p !in ov.rows && p in base ==> !base[p].typ.DirType?
  }

  /** One live row more, and a later rename of it writes a whiteout. */
  ghost predicate AddsRow(before: Overlay, after: Overlay, p: Path) {
    && p !in before.rows && after.rows.Keys == before.rows.Keys + {p}
    && (forall q :: q in before.rows ==> after.rows[q] == before.rows[q])
    && !after.rows[p].IsDeleted() && !LeavesNoWhiteout(after.rows[p])
  }

  lemma CopyUpAddsRow(ov: Overlay, p: Path, n: BaseNode, src: Option<Bytes>)
    requires p !in ov.rows && Hydrated(n, src) && CopyUp(ov, p, n, src).err == OK
    ensures AddsRow(ov, CopyUp(ov, p, n, src).ov, p) && SameSource(CopyUp(ov, p, n, src).ov.rows[p], n)
  {
  }

  class Engine {
    const overlay: Store
    var base: Base

    ghost predicate Valid()
      reads this, overlay
    {
      overlay.Valid() && WellFormedBase(base)
    }

    constructor (overlay: Store, base: Base)
      requires overlay.Valid() && WellFormedBase(base)
      ensures Valid() && this.overlay == overlay && this.base == base
    {
      this.overlay, this.base := overlay, base;
    }

    /** Copy-up of a base node without a row: hydrate its content, then give it the row. */
    method CopyUpBase(path: Path) returns (err: Error)
      requires Valid() && path !in overlay.rows && path in base
      modifies overlay
      ensures Valid()
      ensures err in {OK, TooLong, IOError}
      ensures err != OK ==> overlay.State() == old(overlay.State())
      ensures err == OK ==>
                && CanCopyUp(base[path])
                && Now(old(overlay.State()), overlay.State(), base, path, Some(CopiedUp(base[path])))
                && AddsRow(old(overlay.State()), overlay.State(), path)
                && SameSource(overlay.rows[path], base[path])
      ensures overlay.reliable && CanCopyUp(base[path]) ==> err == OK
    {
      var n := base[path];
      var src := None;
      match n.oid {
        case NoOid =>
        case Blob(content) =>
          if !overlay.reliable { if * { return IOError; } }
          src := Some(content);
        case Other(_) => return IOError;  // no blob to hydrate
      }
      CopyUpShows(overlay.State(), path, n, src);
      if CopyUp(overlay.State(), path, n, src).err == OK { CopyUpAddsRow(overlay.State(), path, n, src); }
      err := overlay.EnsureCopyOnWrite(path, n, src);
    }

    /** ensureOverlay: give a base node a row of its own, which nobody notices unless it was a directory. */
    method EnsureOverlay(path: Path) returns (err: Error)
      requires Valid()
      modifies overlay
      ensures Valid()
      ensures err in {OK, NotExist, TooLong, IOError}
      ensures CopyableOrAbsent(old(overlay.State()), base, path) || err != OK ==>
          SameView(old(overlay.State()), overlay.State(), base)
      ensures !CopyableOrAbsent(old(overlay.State()), base, path) && err == OK ==>
                Now(old(overlay.State()), overlay.State(), base, path, Some(CopiedUp(base[path])))
      ensures path in old(overlay.rows) ==> overlay.State() == old(overlay.State()) && err in {OK, IOError}
      ensures path !in old(overlay.rows) && err == OK ==>
                && path in base && CanCopyUp(base[path]) && AddsRow(old(overlay.State()), overlay.State(), path)
                && SameSource(overlay.rows[path], base[path])
      ensures SameBare(old(overlay.State()), overlay.State())
      ensures err != OK ==> overlay.State() == old(overlay.State())
      ensures err == NotExist ==> path !in old(overlay.rows) && path !in base
      ensures overlay.reliable ==> (err == OK <==> Rowable(old(overlay.State()), base, path))
      ensures overlay.reliable && path !in old(overlay.rows) && path !in base ==> err == NotExist
    {
      if !overlay.reliable { if * { return IOError; } }
      if path in overlay.rows { return OK; }
      if path !in base { return NotExist; }
      err := CopyUpBase(path);
    }

    /** A base directory gets a directory row, a base file or link is copied up. */
    method PromoteNode(path: Path, n: BaseNode) returns (err: Error)
      requires Valid() && path in base && base[path] == n
      requires Resolve(overlay.State(), base, path) == Some(BaseShows(n))
      modifies overlay
      ensures Valid()
      ensures SameView(old(overlay.State()), overlay.State(), base) && SameBare(old(overlay.State()), overlay.State())
      ensures forall p :: Live(old(overlay.State()), p) ==> Live(overlay.State(), p)
      ensures err in {OK, NotExist, TooLong, IOError}
      ensures err == OK ==> Live(overlay.State(), path)
      ensures err == OK && path !in old(overlay.rows) ==> Promotable(InBase(n))
      ensures overlay.reliable && Promotable(InBase(n)) ==> err == OK
      ensures forall p :: p in overlay.rows ==> p in old(overlay.rows) || (p == path && err == OK)
    {
      if n.typ.DirType? {
        MkdirShows(overlay.State(), path, n.mode);
        err := overlay.Mkdir(path, n.mode);
      } else {
        err := EnsureOverlay(path);
      }
    }

    /** The copy-up phase of a directory rename: every visited node gets a row, nobody sees a change. */
    method Promote(visited: seq<Visited>, ghost root: Path) returns (err: Error)
      requires Valid() && Truthful(overlay.State(), base, root, visited)
      modifies overlay
      ensures Valid()
      ensures SameView(old(overlay.State()), overlay.State(), base) && SameBare(old(overlay.State()), overlay.State())
      ensures err in {OK, NotExist, TooLong, IOError}
      ensures err == OK ==> forall i :: 0 <= i < |visited| ==> Live(overlay.State(), visited[i].path)
      ensures err == OK ==> AllPromotable(visited)
      ensures overlay.reliable && AllPromotable(visited) ==> err == OK
    {
      err := OK;
      ghost var start := overlay.State();
      for i := 0 to |visited|
        invariant err == OK && Valid() && SameView(start, overlay.State(), base)
        invariant PromotedFirst(start, overlay.State(), base, visited, i)
      {
        ghost var before := overlay.State();
        if visited[i].node.InBase? {
          err := PromoteNode(visited[i].path, visited[i].node.n);
          if err != OK { return; }
        }
        PromotedOneMore(start, before, overlay.State(), base, root, visited, i);
      }
    }

    /** The second half of renameDirectory: what was found is given rows, then the rows move. */
    method MoveVisited(oldPath: Path, newPath: Path, sourceBasePaths: seq<Path>, destinationBasePaths: seq<Path>,
        visited: seq<Visited>) returns (err: Error)
      requires Valid() && oldPath != newPath && !InvalidTreeMove(oldPath, newPath)
      requires Elements(sourceBasePaths) == BaseUnder(base, oldPath)
      requires Elements(destinationBasePaths) == BaseUnder(base, newPath)
      requires WalkDone(overlay.State(), base, oldPath, visited)
      modifies overlay
      ensures Valid()
      ensures err != OK ==> Unseen(old(overlay.State()), overlay.State(), base)
      ensures err == OK ==> Apart(oldPath, newPath)
      ensures err == OK && TreeShaped(old(overlay.State()), base) ==>
                && TreeMoved(old(overlay.State()), overlay.State(), base, oldPath, newPath)
                && TreeLanded(old(overlay.State()), overlay.State(), base, oldPath, newPath)
      ensures err == Exist ==> !EmptyOrAbsent(old(overlay.State()), base, newPath)
      ensures overlay.reliable && TreeShaped(old(overlay.State()), base) &&
              EmptyOrAbsent(old(overlay.State()), base, newPath) ==>
                (err == OK <==>
                   AllPromotable(visited) && Resolve(old(overlay.State()), base, oldPath) == Some(DirNode))
    {
      ghost var start := overlay.State();
      err := Promote(visited, oldPath);
      if err != OK { return; }
      ghost var promoted := overlay.State();
      err := overlay.RenameTree(oldPath, newPath, sourceBasePaths, destinationBasePaths);
      PromotedMove(start, promoted, overlay.State(), base, oldPath, newPath, visited, err, overlay.reliable);
      if TreeShaped(start, base) && EmptyOrAbsent(start, base, newPath) {
        PromotedMoveSucceeds(start, promoted, base, oldPath, newPath, visited);
      }
    }

    /** renameDirectory */
    method RenameDirectory(oldPath: Path, newPath: Path) returns (err: Error)
      requires Valid() && oldPath != newPath
      modifies overlay
      ensures Valid()
      ensures err != OK ==> Unseen(old(overlay.State()), overlay.State(), base)
      ensures err == OK ==> oldPath != ROOT && newPath != ROOT && Apart(oldPath, newPath)
      ensures err == OK && TreeShaped(old(overlay.State()), base) ==>
                && EmptyOrAbsent(old(overlay.State()), base, newPath)
                && TreeMoved(old(overlay.State()), overlay.State(), base, oldPath, newPath)
                && TreeLanded(old(overlay.State()), overlay.State(), base, oldPath, newPath)
      ensures err == Exist ==>
                !EmptyOrAbsent(old(overlay.State()), base, newPath) || ListsOrphan(old(overlay.State()), base, newPath)
      ensures overlay.reliable && TreeShaped(old(overlay.State()), base) ==>
                (err == OK <==>
                   && Renamable(old(overlay.State()), base, oldPath, newPath)
                   && !ListsOrphan(old(overlay.State()), base, oldPath)
                   && !ListsOrphan(old(overlay.State()), base, newPath))
    {
      ghost var start := overlay.State();
      if InvalidTreeMove(oldPath, newPath) { return Invalid; }
      if !overlay.reliable { if * { return IOError; } }
      var ov := overlay.State();
      err := CheckDestination(ov, base, newPath);
      if err != OK { return; }
      var destinationBasePaths, sourceBasePaths, visited;
      destinationBasePaths, err := SnapshotTreePaths(base, newPath, overlay.reliable);
      if err != OK { return; }
      sourceBasePaths, err := SnapshotTreePaths(base, oldPath, overlay.reliable);
      if err != OK { return; }
      visited, err := MergedTree(ov, base, oldPath, overlay.reliable, LengthBound(ov.rows.Keys + base.Keys));
      if err != OK { return; }
      if TreeShaped(ov, base) { AllPromotableIff(ov, base, oldPath, visited); }
      err := MoveVisited(oldPath, newPath, sourceBasePaths, destinationBasePaths, visited);
    }

    /** A created file or a link that lands on a tracked path is marked as modified from it. */
    method RenameMarked(oldPath: Path, newPath: Path) returns (err: Error)
      requires Valid() && oldPath != newPath && newPath in base
      requires Live(overlay.State(), oldPath) && overlay.rows[oldPath].kind in {Kind.Create, Kind.Symlink}
      modifies overlay
      ensures Valid()
      ensures err != OK ==> Unseen(old(overlay.State()), overlay.State(), base)
      ensures err == OK ==> LeafRenamed(old(overlay.State()), overlay.State(), base, oldPath, newPath)
      ensures err == OK ==> Landed(old(overlay.State()), overlay.State(), base, oldPath, newPath, true)
      ensures overlay.reliable ==> err == OK
    {
      ghost var start := overlay.State();
      RenameOntoBaseMoves(start, oldPath, newPath, base[newPath].oid, base[newPath].mode);
      err := overlay.RenameAndMarkModifiedFromBase(oldPath, newPath, base[newPath].oid, base[newPath].mode);
      if err == OK { LeafRenamedFromMove(start, overlay.State(), base, oldPath, newPath); }
    }

    /** Any other file or link moves with its row, which it may have to be given first. */
    method RenameWithRow(oldPath: Path, newPath: Path) returns (err: Error)
      requires Valid() && oldPath != newPath
      requires Lookup(overlay.State(), base, oldPath).Some?
      requires !Lookup(overlay.State(), base, oldPath).value.Type().DirType?
      requires newPath in base && oldPath in overlay.rows ==> overlay.rows[oldPath].kind !in {Kind.Create, Kind.Symlink}
      modifies overlay
      ensures Valid()
      ensures err != OK ==> Unseen(old(overlay.State()), overlay.State(), base)
      ensures err == OK ==> LeafRenamed(old(overlay.State()), overlay.State(), base, oldPath, newPath)
      ensures err == OK ==>
                Landed(old(overlay.State()), overlay.State(), base, oldPath, newPath, oldPath in old(overlay.rows))
      ensures overlay.reliable ==> (err == OK <==> Promotable(Lookup(old(overlay.State()), base, oldPath).value))
    {
      ghost var start := overlay.State();
      err := EnsureOverlay(oldPath);
      if err != OK { return; }
      ghost var promoted := overlay.State();
      assert Resolve(promoted, base, oldPath) == Resolve(start, base, oldPath);
      assert LeftBehind(promoted, base, oldPath) == LeftBehind(start, base, oldPath);
      RenameRowMoves(promoted, oldPath, newPath);
      err := overlay.Rename(oldPath, newPath);
      if err == OK {
        LeafRenamedFromMove(promoted, overlay.State(), base, oldPath, newPath);
        LeafRenamedFromSameView(start, promoted, overlay.State(), base, oldPath, newPath);
        RowRenameLands(start, promoted, base, oldPath, newPath);
      }
    }

    /** Rename of a file or link: exact, but for a base node its own row did not white out. */
    method RenameLeaf(oldPath: Path, newPath: Path) returns (err: Error)
      requires Valid() && oldPath != newPath
      requires Lookup(overlay.State(), base, oldPath).Some?
      requires !Lookup(overlay.State(), base, oldPath).value.Type().DirType?
      modifies overlay
      ensures Valid()
      ensures err != OK ==> Unseen(old(overlay.State()), overlay.State(), base)
      ensures err == OK ==> LeafRenamed(old(overlay.State()), overlay.State(), base, oldPath, newPath)
      ensures err == OK ==>
                Landed(old(overlay.State()), overlay.State(), base, oldPath, newPath, oldPath in old(overlay.rows))
      ensures overlay.reliable ==>
                (err == OK <==>
                   && !(newPath in base && base[newPath].typ.DirType?)
                   && Promotable(Lookup(old(overlay.State()), base, oldPath).value))
    {
      if !overlay.reliable { if * { return IOError; } }
      if newPath in base && base[newPath].typ.DirType? { return Invalid; }
      if oldPath in overlay.rows && newPath in base && overlay.rows[oldPath].kind in {Kind.Create, Kind.Symlink} {
        err := RenameMarked(oldPath, newPath);
      } else {
        err := RenameWithRow(oldPath, newPath);
      }
    }

    method Rename(oldPath: Path, newPath: Path) returns (err: Error)
      requires Valid()
      modifies overlay
      ensures Valid()
      ensures err != OK ==> Unseen(old(overlay.State()), overlay.State(), base)
      ensures err == OK ==> Resolve(old(overlay.State()), base, oldPath).Some?
      ensures err == OK && oldPath == newPath ==> Unseen(old(overlay.State()), overlay.State(), base)
      ensures err == OK && oldPath != newPath && Resolve(old(overlay.State()), base, oldPath) != Some(DirNode) ==>
                && LeafRenamed(old(overlay.State()), overlay.State(), base, oldPath, newPath)
                && Landed(old(overlay.State()), overlay.State(), base, oldPath, newPath, oldPath in old(overlay.rows))
      ensures err == OK && oldPath != newPath && Resolve(old(overlay.State()), base, oldPath) == Some(DirNode) &&
              TreeShaped(old(overlay.State()), base) ==>
                && Apart(oldPath, newPath) && EmptyOrAbsent(old(overlay.State()), base, newPath)
                && TreeMoved(old(overlay.State()), overlay.State(), base, oldPath, newPath)
                && TreeLanded(old(overlay.State()), overlay.State(), base, oldPath, newPath)
      ensures overlay.reliable && TreeShaped(old(overlay.State()), base) && oldPath != newPath &&
              Resolve(old(overlay.State()), base, oldPath) == Some(DirNode) ==>
                (err == OK <==>
                   && Renamable(old(overlay.State()), base, oldPath, newPath)
                   && !ListsOrphan(old(overlay.State()), base, oldPath)
                   && !ListsOrphan(old(overlay.State()), base, newPath))
      ensures overlay.reliable && oldPath != newPath && Resolve(old(overlay.State()), base, oldPath).Some? &&
              Resolve(old(overlay.State()), base, oldPath) != Some(DirNode) ==>
                (err == OK <==>
                   && !(newPath in base && base[newPath].typ.DirType?)
                   && Rowable(old(overlay.State()), base, oldPath))
    {
      var source := Lookup(overlay.State(), base, oldPath);
      if !overlay.reliable { if * { return IOError; } }
      if source.None? { return NotExist; }
      if oldPath == newPath { return OK; }
      if source.value.Type().DirType? {
        err := RenameDirectory(oldPath, newPath);
      } else {
        err := RenameLeaf(oldPath, newPath);
      }
    }

    /** Create, over whatever the path showed before. */
    method Create(path: Path, mode: nat) returns (err: Error)
      requires Valid()
      modifies overlay
      ensures Valid()
      ensures err == OK ==> Now(old(overlay.State()), overlay.State(), base, path, Some(FileNode(Data([]), Perm(mode))))
      ensures err == OK ==> BareNow(old(overlay.State()), overlay.State(), path, true)
      ensures err != OK ==> Unseen(old(overlay.State()), overlay.State(), base)
      ensures overlay.reliable ==> err == OK
    {
      CreateFileShows(overlay.State(), path, mode);
      err := overlay.CreateFile(path, mode);
    }

    method Symlink(path: Path, text: Bytes) returns (err: Error)
      requires Valid()
      modifies overlay
      ensures Valid()
      ensures err == OK ==> Now(old(overlay.State()), overlay.State(), base, path, Some(LinkNode(Data(text))))
      ensures err == OK ==> BareNow(old(overlay.State()), overlay.State(), path, true)
      ensures err != OK ==> Unseen(old(overlay.State()), overlay.State(), base)
      ensures overlay.reliable ==> (err == OK <==> |text| <= MAX_SYMLINK_TARGET_BYTES)
    {
      CreateSymlinkShows(overlay.State(), path, text);
      err := overlay.CreateSymlink(path, text);
    }

    method Mkdir(path: Path, mode: nat) returns (err: Error)
      requires Valid()
      modifies overlay
      ensures Valid()
      ensures err == OK ==> Now(old(overlay.State()), overlay.State(), base, path, Some(DirNode))
      ensures err == OK ==> HasDirectoryRow(overlay.State(), path, mode)
      ensures err == OK ==> BareNow(old(overlay.State()), overlay.State(), path, false)
      ensures err != OK ==> Unseen(old(overlay.State()), overlay.State(), base)
      ensures overlay.reliable ==> err == OK
    {
      MkdirShows(overlay.State(), path, mode);
      err := overlay.Mkdir(path, mode);
    }

    method Unlink(path: Path) returns (err: Error)
      requires Valid()
      modifies overlay
      ensures Valid()
      ensures err == OK ==> Now(old(overlay.State()), overlay.State(), base, path, None)
      ensures err == OK ==> BareNow(old(overlay.State()), overlay.State(), path, false)
      ensures err != OK ==> Unseen(old(overlay.State()), overlay.State(), base)
      ensures overlay.reliable ==> err == OK
    {
      RemoveHides(overlay.State(), path);
      err := overlay.Remove(path);
    }

    /** The row a write goes to: an existing one, the base node copied up, or a new empty file. */
    method EnsureWritable(path: Path) returns (err: Error)
      requires Valid()
      modifies overlay
      ensures Valid()
      ensures if err == OK then Writable(old(overlay.State()), overlay.State(), base, path)
              else Unseen(old(overlay.State()), overlay.State(), base)
      ensures overlay.reliable && (path in base ==> Rowable(old(overlay.State()), base, path)) ==> err == OK
    {
      err := EnsureOverlay(path);
      if err == NotExist {
        CreateFileShows(overlay.State(), path, 420);
        err := overlay.CreateFile(path, 420);
      }
    }

    method Write(path: Path, off: nat, data: Bytes) returns (err: Error)
      requires Valid()
      modifies overlay
      ensures Valid()
      ensures if err == OK then Written(old(overlay.State()), overlay.State(), base, path, off, data)
              else || Unseen(old(overlay.State()), overlay.State(), base)
                   || Begun(old(overlay.State()), overlay.State(), base, path)
      ensures overlay.reliable ==>
                (err == OK <==> match WriteStartsFrom(old(overlay.State()), base, path)
                                case Some(FileNode(Data(_), _)) => true
                                case _ => false)
    {
      ghost var start := overlay.State();
      err := EnsureWritable(path);
      if err != OK { return; }
      ghost var before := overlay.State();
      WriteFileShows(before, path, off, data);
      WriteKeepsBare(before, path, off, data);
      err := overlay.WriteFile(path, off, data);
      WriteEnds(start, before, overlay.State(), base, path, off, data, err);
    }

    /** Rmdir removes exactly the paths whose merged listing is empty. */
    method Rmdir(path: Path) returns (err: Error)
      requires Valid()
      modifies overlay
      ensures Valid()
      ensures err == OK ==> Now(old(overlay.State()), overlay.State(), base, path, None)
      ensures err == OK ==> BareNow(old(overlay.State()), overlay.State(), path, false)
      ensures err != OK ==> Unseen(old(overlay.State()), overlay.State(), base)
      ensures err == OK && TreeShaped(old(overlay.State()), base) && path != ROOT ==> TreeShaped(overlay.State(), base)
      ensures err in {OK, Exist, IOError}
      ensures err == OK ==> forall name :: ChildAt(old(overlay.State()), base, path + [name]).None?
      ensures err == Exist ==> exists name :: ChildAt(old(overlay.State()), base, path + [name]).Some?
      ensures overlay.reliable ==> err != IOError
    {
      if !overlay.reliable { if * { return IOError; } }
      var ov := overlay.State();
      var matched := ListByPrefix(ov, path);
      var children := ReaddirTyped(ov, base, path, matched);
      if children != [] {
        assert ChildAt(ov, base, path + [children[0].name]).Some?;
        return Exist;
      }
      RemoveHides(ov, path);
      err := overlay.Remove(path);
      if err == OK && TreeShaped(ov, base) && path != ROOT { RemovalKeepsShape(ov, overlay.State(), base, path); }
    }

    /** Reconcile and generation switch under the transition lock. */
    method Transition(newBase: Base) returns (err: Error)
      requires Valid() && WellFormedBase(newBase)
      modifies this, overlay
      ensures Valid()
      ensures err == OK || (err == IOError && !overlay.reliable)
      ensures err == OK ==> base == newBase && overlay.State() == Reconcile(old(overlay.State()), newBase)
      ensures err == OK ==> NormalForm(overlay.State(), base)
      ensures err == OK ==>
                (SameView(old(overlay.State()), overlay.State(), newBase) <==>
                   ForeignWhiteoutsClear(old(overlay.rows), newBase) && NoneConfusable(old(overlay.State()), newBase))
      ensures err == OK ==> (TreeShaped(overlay.State(), base) <==> FitsTree(old(overlay.rows), newBase))
      ensures err != OK ==> base == old(base) && overlay.State() == old(overlay.State())
    {
      ReconcileKeepsViewIff(overlay.State(), newBase);
      ReconcileNormalizes(overlay.State(), newBase);
      SwitchKeepsTreeIff(overlay.State(), newBase);
      err := overlay.ReconcileChecked(newBase);
      if err == OK { base := newBase; }
    }
  }
}
