/**
 * The overlay store: rows and backing files rewritten in place under one mutex.
 *
 * Each method either fails on I/O and leaves its state alone, or does exactly what the
 * corresponding function on overlay values says.  `*` stands for an I/O error, which a reliable
 * store never meets.
 */
module OverlayStore {
  import opened Paths
  import opened Model
  import opened Overlays
  import opened Reconciles
  import Effects = OverlayEffects

  /** Either an I/O failure that changed nothing, or the outcome the specification gives. */
  ghost predicate Outcome(reliable: bool, before: Overlay, after: Overlay, err: Error, spec: Res) {
    (!reliable && err == IOError && after == before) || Res(after, err) == spec
  }

  function Elements(paths: seq<Path>): set<Path> {
    set p | p in paths
  }

  /** The paths of a query result, each once, in some order. */
  method Listed(keys: set<Path>) returns (paths: seq<Path>)
    ensures Elements(paths) == keys
    ensures forall i, j :: 0 <= i < j < |paths| ==> paths[i] != paths[j]
  {
    paths := [];
    var rest := keys;
    while rest != {}
      invariant rest <= keys && Elements(paths) == keys - rest
      invariant forall i, j :: 0 <= i < j < |paths| ==> paths[i] != paths[j]
    {
      var p :| p in rest;
      assert p !in Elements(paths);
      ghost var before := paths;
      paths := paths + [p];
      assert Elements(paths) == Elements(before) + {p};
      rest := rest - {p};
    }
  }

  /** `e` is the row a tree rename puts at `q`. */
  ghost predicate Carries(ov: Overlay, oldPath: Path, newPath: Path, sourceBase: set<Path>, q: Path, e: Entry) {
    && Under(q, newPath) && Rebase(q, newPath, oldPath) in ov.rows
    && (var p := Rebase(q, newPath, oldPath); e == CarriedRow(ov.rows[p], p, p in sourceBase))
  }

  lemma MovedIsMovedRows(ov: Overlay, oldPath: Path, newPath: Path, sourceBase: set<Path>, moved: map<Path, Entry>)
    requires moved.Keys == CarriedPaths(ov, oldPath, newPath)
    requires forall q :: q in moved ==> Carries(ov, oldPath, newPath, sourceBase, q, moved[q])
    ensures moved == MovedRows(ov, oldPath, newPath, sourceBase)
  {
  }

  /** The inserts of a tree rename never meet a primary key that is already there. */
  lemma NoKeyInsertedTwice(kept: map<Path, Entry>, moved: map<Path, Entry>, tracked: set<Path>, replaced: set<Path>,
                           oldPath: Path, newPath: Path)
    requires Apart(oldPath, newPath)
    requires forall p :: p in kept ==> !Under(p, oldPath) && !Under(p, newPath)
    requires forall p :: p in moved ==> Under(p, newPath)
    requires forall p :: p in tracked ==> Under(p, oldPath)
    requires forall p :: p in replaced ==> Under(p, newPath) && p !in moved
    ensures kept.Keys !! moved.Keys && tracked !! replaced
    ensures (kept.Keys + moved.Keys) !! (tracked + replaced)
  {
  }

  lemma WhiteoutsAre(ov: Overlay, oldPath: Path, newPath: Path,
      sourceBasePaths: seq<Path>, destinationBasePaths: seq<Path>,
      moved: set<Path>, tracked: set<Path>, replaced: set<Path>)
    requires moved == CarriedPaths(ov, oldPath, newPath)
    requires tracked == set p | p in sourceBasePaths && Under(p, oldPath)
    requires replaced == set p | p in destinationBasePaths && StrictlyUnder(p, newPath) && p !in moved
    ensures tracked + replaced ==
              TreeWhiteouts(ov, oldPath, newPath, Elements(sourceBasePaths), Elements(destinationBasePaths))
  {
  }

  predicate FirstPass(e: Entry) {
    e.kind.Modify? || e.kind.Rename?
  }

  /** The reconcile work lists hold the right verdict on every row in `done`, and nothing else. */
  ghost predicate Settled(ov: Overlay, base: Base, done: set<Path>, toRemove: set<Path>, toUpdate: map<Path, Entry>) {
    && toRemove <= done && toUpdate.Keys <= done && done <= ov.rows.Keys
    && forall p :: p in done ==>
         (p in toRemove <==> RowFate(ov, base, p).Drop?)
         && (p in toUpdate <==> RowFate(ov, base, p).Rebased?)
         && (p in toUpdate ==> toUpdate[p] == RowFate(ov, base, p).e)
  }

  /** The work lists grew by exactly this verdict on `p`. */
  ghost predicate Judged(fate: Fate, p: Path, removals: set<Path>, updates: map<Path, Entry>,
                         toRemove: set<Path>, toUpdate: map<Path, Entry>)
  {
    && toRemove == (if fate.Drop? then removals + {p} else removals)
    && toUpdate == if fate.Rebased? then updates[p := fate.e] else updates
  }

  lemma VerdictSettles(ov: Overlay, base: Base, done: set<Path>, p: Path,
      removals: set<Path>, updates: map<Path, Entry>, toRemove: set<Path>, toUpdate: map<Path, Entry>)
    requires Settled(ov, base, done, removals, updates) && p in ov.rows
    requires Judged(RowFate(ov, base, p), p, removals, updates, toRemove, toUpdate)
    ensures Settled(ov, base, done + {p}, toRemove, toUpdate)
  {
  }

  function FirstPassRows(rows: map<Path, Entry>, done: set<Path>): set<Path> {
    set p | p in done && p in rows && FirstPass(rows[p])
  }

  lemma FirstPassGrows(rows: map<Path, Entry>, done: set<Path>, p: Path)
    requires p in rows
    ensures FirstPassRows(rows, done + {p}) == FirstPassRows(rows, done) + if FirstPass(rows[p]) then {p} else {}
  {
  }

  /** The stale rename sources among the rows looked at so far. */
  function StaleAmong(rows: map<Path, Entry>, base: Base, done: set<Path>): set<Path> {
    set p | p in done && p in rows && rows[p].kind.Rename? && SourcePath(p, rows[p]) !in base :: SourcePath(p, rows[p])
  }

  lemma StaleAmongGrows(rows: map<Path, Entry>, base: Base, done: set<Path>, p: Path)
    requires p in rows
    ensures StaleAmong(rows, base, done + {p}) == StaleAmong(rows, base, done) +
              if rows[p].kind.Rename? && SourcePath(p, rows[p]) !in base then {SourcePath(p, rows[p])} else {}
  {
  }

  class Store {
    const reliable: bool
    var rows: map<Path, Entry>
    var files: map<BackingId, Backing>
    var next: BackingId

    function State(): Overlay
      reads this
    {
      Overlay(rows, files, next)
    }

    ghost predicate Valid()
      reads this
    {
      Owned(State())
    }

    constructor (reliable: bool)
      ensures Valid() && rows == map[] && files == map[] && this.reliable == reliable
    {
      this.reliable := reliable;
      rows, files, next := map[], map[], 0;
    }

    method CreateFile(path: Path, mode: nat) returns (err: Error)
      requires Valid()
      modifies this
      ensures Valid()
      ensures Outcome(reliable, old(State()), State(), err, Overlays.CreateFile(old(State()), path, mode))
    {
      if !reliable { if * { return IOError; } }
      Effects.CreateFileShows(State(), path, mode);
      var backing := next;
      files, next := files[backing := FileObj([])], next + 1;
      rows := rows[path := Entry(Create, Some(backing), mode, 0, NoOid, 0, NoTarget)];
      err := OK;
    }

    method CreateSymlink(path: Path, text: Bytes) returns (err: Error)
      requires Valid()
      modifies this
      ensures Valid()
      ensures Outcome(reliable, old(State()), State(), err, Overlays.CreateSymlink(old(State()), path, text))
    {
      Effects.CreateSymlinkShows(State(), path, text);
      if |text| > MAX_SYMLINK_TARGET_BYTES { return TooLong; }
      if !reliable { if * { return IOError; } }
      rows := rows[path := Entry(Symlink, None, LINK_MODE, |text|, NoOid, 0, LinkText(text))];
      err := OK;
    }

    method Mkdir(path: Path, mode: nat) returns (err: Error)
      requires Valid()
      modifies this
      ensures Valid()
      ensures Outcome(reliable, old(State()), State(), err, MakeDir(old(State()), path, mode))
    {
      if !reliable { if * { return IOError; } }
      Effects.MkdirShows(State(), path, mode);
      var backing := next;
      files, next := files[backing := DirObj], next + 1;
      rows := rows[path := Entry(Kind.Mkdir, Some(backing), NormalizeGitDirMode(mode), 0, NoOid, 0, NoTarget)];
      err := OK;
    }

    /** EnsureCopyOnWriteFrom */
    method EnsureCopyOnWrite(path: Path, base: BaseNode, src: Option<Bytes>) returns (err: Error)
      requires Valid()
      modifies this
      ensures Valid()
      ensures Outcome(reliable, old(State()), State(), err, CopyUp(old(State()), path, base, src))
    {
      Effects.CopyUpKeepsOwned(State(), path, base, src);
      if path in rows && !rows[path].IsDeleted() { return OK; }
      if base.typ.LinkType? {
        if src.None? { return IOError; }
        if |src.value| > MAX_SYMLINK_TARGET_BYTES { return TooLong; }
        if !reliable { if * { return IOError; } }
        rows := rows[path := Entry(Symlink, None, base.mode, |src.value|, base.oid, base.mode, LinkText(src.value))];
        return OK;
      }
      if !reliable { if * { return IOError; } }
      var backing, data := next, [];
      if src.Some? { data := src.value; }
      files, next := files[backing := FileObj(data)], next + 1;
      rows := rows[path := Entry(Modify, Some(backing), base.mode, |data|, base.oid, base.mode, NoTarget)];
      err := OK;
    }

    method WriteFile(path: Path, off: nat, data: Bytes) returns (err: Error)
      requires Valid()
      modifies this
      ensures Valid()
      ensures Outcome(reliable, old(State()), State(), err, Overlays.WriteFile(old(State()), path, off, data))
    {
      Effects.WriteFileShows(State(), path, off, data);
      if path !in rows || rows[path].IsDeleted() { return NotExist; }
      var e := rows[path];
      if e.backing.None? || !files[e.backing.value].FileObj? { return IOError; }
      if !reliable { if * { return IOError; } }
      var written := Spliced(files[e.backing.value].data, off, data);
      files := files[e.backing.value := FileObj(written)];
      e := e.(size := |written|);
      if !e.kind.Create? { e := e.(kind := Modify); }
      rows := rows[path := e];
      err := OK;
    }

    method Truncate(path: Path, size: nat) returns (err: Error)
      requires Valid()
      modifies this
      ensures Valid()
      ensures Outcome(reliable, old(State()), State(), err, Overlays.Truncate(old(State()), path, size))
    {
      Effects.TruncateShows(State(), path, size);
      if path !in rows || rows[path].IsDeleted() { return NotExist; }
      var e := rows[path];
      if e.backing.None? || !files[e.backing.value].FileObj? { return IOError; }
      if !reliable { if * { return IOError; } }
      files := files[e.backing.value := FileObj(Resized(files[e.backing.value].data, size))];
      e := e.(size := size);
      if !e.kind.Create? { e := e.(kind := Modify); }
      rows := rows[path := e];
      err := OK;
    }

    method SetMode(path: Path, mode: nat) returns (err: Error)
      requires Valid()
      modifies this
      ensures Valid()
      ensures Outcome(reliable, old(State()), State(), err, Overlays.SetMode(old(State()), path, mode))
    {
      Effects.SetModeShows(State(), path, mode);
      if path !in rows || rows[path].IsDeleted() { return NotExist; }
      if !reliable { if * { return IOError; } }
      var e := rows[path];
      rows := rows[path := e.(mode := WithPerm(e.mode, mode))];
      err := OK;
    }

    method Remove(path: Path) returns (err: Error)
      requires Valid()
      modifies this
      ensures Valid()
      ensures Outcome(reliable, old(State()), State(), err, Overlays.Remove(old(State()), path))
    {
      if !reliable { if * { return IOError; } }
      Effects.RemoveHides(State(), path);
      var existing := None;
      if path in rows { existing := rows[path].backing; }
      rows := rows[path := Whiteout(NoTarget)];
      if existing.Some? { files := files - {existing.value}; }
      err := OK;
    }

    /** The transaction of both row renames; the replaced backing goes after the commit. */
    method CommitMove(oldPath: Path, newPath: Path, e: Entry, whiteout: Option<Entry>)
      requires oldPath != newPath
      modifies this
      ensures State() == MoveRow(old(State()), oldPath, newPath, e, whiteout)
    {
      var replaced := None;
      if newPath in rows { replaced := rows[newPath].backing; }
      rows := rows - {oldPath};
      rows := rows - {newPath};
      rows := rows[newPath := e];
      assert rows == (old(rows) - {oldPath})[newPath := e];
      if whiteout.Some? { rows := rows[oldPath := whiteout.value]; }
      if replaced.Some? && replaced != e.backing { files := files - {replaced.value}; }
    }

    method Rename(oldPath: Path, newPath: Path) returns (err: Error)
      requires Valid()
      modifies this
      ensures Valid()
      ensures Outcome(reliable, old(State()), State(), err, RenameRow(old(State()), oldPath, newPath))
    {
      if oldPath !in rows || rows[oldPath].IsDeleted() { return NotExist; }
      if oldPath == newPath { return OK; }
      var e := rows[oldPath];
      if e.kind.Mkdir? {
        ghost var before := State();
        assert RenameRow(before, oldPath, newPath) == Overlays.RenameTree(before, oldPath, newPath, {}, {});
        assert Elements([]) == {};
        err := RenameTree(oldPath, newPath, [], []);
        return;
      }
      err := RenameLeaf(oldPath, newPath);
    }

    /** The part of Rename that moves a row other than a directory's. */
    method RenameLeaf(oldPath: Path, newPath: Path) returns (err: Error)
      requires Valid() && oldPath in rows && !rows[oldPath].IsDeleted() && !rows[oldPath].kind.Mkdir?
          && oldPath != newPath
      modifies this
      ensures Valid()
      ensures Outcome(reliable, old(State()), State(), err, RenameRow(old(State()), oldPath, newPath))
    {
      var e := rows[oldPath];
      var newTarget, whiteoutTarget := Origin(oldPath), Origin(oldPath);
      var newKind, newOid, newMode, writeWhiteout := Kind.Rename, e.sourceOid, e.sourceMode, true;
      if e.kind.Rename? && !e.target.NoTarget? {
        newTarget, whiteoutTarget := e.target, e.target;
      }
      if e.kind.Create? {
        newKind, newTarget, writeWhiteout := e.kind, NoTarget, false;
      } else if e.kind.Symlink? {
        newKind, newTarget, writeWhiteout := e.kind, e.target, !e.sourceOid.NoOid?;
        newOid, newMode := NoOid, 0;
      }
      var moved := e.(kind := newKind, sourceOid := newOid, sourceMode := newMode, target := newTarget);
      var whiteout := if writeWhiteout then Some(Whiteout(whiteoutTarget)) else None;
      assert moved == RenamedRow(e, oldPath);
      assert whiteout == if LeavesNoWhiteout(e) then None else Some(RenameWhiteout(e, oldPath));
      if !reliable { if * { return IOError; } }
      Effects.RenameRowMoves(State(), oldPath, newPath);
      CommitMove(oldPath, newPath, moved, whiteout);
      err := OK;
    }

    /** Its caller renames creates and symlinks only; a directory's row would turn into that of a file without
        backing file. */
    method RenameAndMarkModifiedFromBase(oldPath: Path, newPath: Path, oid: Oid, mode: nat) returns (err: Error)
      requires Valid()
      modifies this
      ensures Valid() <==> !(err == OK && oldPath in old(rows) && old(rows)[oldPath].kind.Mkdir?)
      ensures Outcome(reliable, old(State()), State(), err, RenameOntoBase(old(State()), oldPath, newPath, oid, mode))
    {
      if oldPath !in rows || rows[oldPath].IsDeleted() { return NotExist; }
      var e := rows[oldPath];
      assert RowOwned(e, files);
      var newKind := Modify;
      if e.kind.Symlink? { newKind := Symlink; }
      if !reliable { if * { return IOError; } }
      if oldPath == newPath {
        var target := NoTarget;
        if newKind.Symlink? { target := e.target; }
        rows := rows[oldPath := e.(kind := newKind, sourceOid := oid, sourceMode := mode, target := target)];
        assert RowOwned(rows[oldPath], files) <==> !e.kind.Mkdir?;
        return OK;
      }
      if !e.kind.Mkdir? { Effects.RenameOntoBaseMoves(State(), oldPath, newPath, oid, mode); }
      var whiteout := None;
      if e.kind.Symlink? && !e.sourceOid.NoOid? { whiteout := Some(Whiteout(NoTarget)); }
      CommitMove(oldPath, newPath, e.(kind := newKind, sourceOid := oid, sourceMode := mode), whiteout);
      assert e.kind.Mkdir? ==> !RowOwned(rows[newPath], files);
      err := OK;
    }

    /** renameTreeLocked */
    method RenameTree(oldPath: Path, newPath: Path, sourceBasePaths: seq<Path>, destinationBasePaths: seq<Path>)
        returns (err: Error)
      requires Valid()
      modifies this
      ensures Valid()
      ensures Outcome(reliable, old(State()), State(), err,
                Overlays.RenameTree(old(State()), oldPath, newPath, Elements(sourceBasePaths),
                    Elements(destinationBasePaths)))
    {
      if oldPath == newPath {
        return if oldPath !in rows || rows[oldPath].IsDeleted() then NotExist else OK;
      }
      if InvalidTreeMove(oldPath, newPath) { return Invalid; }
      if !reliable { if * { return IOError; } }
      if oldPath !in rows || rows[oldPath].IsDeleted() { return NotExist; }
      if !rows[oldPath].kind.Mkdir? { return Invalid; }
      if newPath in rows && !rows[newPath].IsDeleted() && !rows[newPath].kind.Mkdir? { return Invalid; }
      var destination := set p | p in rows && Under(p, newPath);
      var occupied := set p | p in destination && p != newPath && !rows[p].IsDeleted();
      assert occupied == LiveUnder(State(), newPath) - {newPath};
      if occupied != {} { return Exist; }
      assert TreeMoveError(State(), oldPath, newPath) == OK;
      Effects.TreeMoves(State(), oldPath, newPath, Elements(sourceBasePaths), Elements(destinationBasePaths));

      var sources := Listed(set p | p in rows && Under(p, oldPath) && !rows[p].IsDeleted());
      assert forall p :: p in sources ==> p in Elements(sources);
      var moved, movedBackings := GatherMoved(sources, oldPath, newPath, sourceBasePaths);
      assert Elements(sources) == LiveUnder(State(), oldPath);
      if !reliable { if * { return IOError; } }

      CommitTree(oldPath, newPath, sourceBasePaths, destinationBasePaths, moved, movedBackings);
      err := OK;
    }

    /** The transaction of a tree rename, and the removal of the replaced backings after it. */
    method CommitTree(oldPath: Path, newPath: Path, sourceBasePaths: seq<Path>, destinationBasePaths: seq<Path>,
                      moved: map<Path, Entry>, movedBackings: set<BackingId>)
      requires Apart(oldPath, newPath)
      requires moved.Keys == CarriedPaths(State(), oldPath, newPath)
      requires forall q :: q in moved ==> Carries(State(), oldPath, newPath, Elements(sourceBasePaths), q, moved[q])
      requires movedBackings == LiveBackingsUnder(State(), oldPath)
      modifies this
      ensures rows == TreeRows(old(State()), oldPath, newPath, Elements(sourceBasePaths),
          Elements(destinationBasePaths))
      ensures files == old(files) - (BackingsUnder(old(State()), newPath) - LiveBackingsUnder(old(State()), oldPath))
      ensures next == old(next)
    {
      var doomed := BackingsUnder(State(), newPath) - movedBackings;
      var tracked := set p | p in sourceBasePaths && Under(p, oldPath);
      var replaced := set p | p in destinationBasePaths && StrictlyUnder(p, newPath) && p !in moved;
      var kept := KeptRows(State(), oldPath, newPath);
      NoKeyInsertedTwice(kept, moved, tracked, replaced, oldPath, newPath);
      MovedIsMovedRows(State(), oldPath, newPath, Elements(sourceBasePaths), moved);
      WhiteoutsAre(State(), oldPath, newPath, sourceBasePaths, destinationBasePaths, moved.Keys, tracked, replaced);
      rows := kept + moved + SelfWhiteouts(tracked + replaced);
      files := files - doomed;
    }

    /** The rows a tree rename carries along, under their new paths, and the backings they own. */
    method GatherMoved(sources: seq<Path>, oldPath: Path, newPath: Path, sourceBasePaths: seq<Path>)
      returns (moved: map<Path, Entry>, movedBackings: set<BackingId>)
      requires forall p :: p in sources ==> p in rows && Under(p, oldPath)
      requires Elements(sources) == LiveUnder(State(), oldPath)
      ensures moved.Keys == CarriedPaths(State(), oldPath, newPath)
      ensures forall q :: q in moved ==> Carries(State(), oldPath, newPath, Elements(sourceBasePaths), q, moved[q])
      ensures movedBackings == LiveBackingsUnder(State(), oldPath)
    {
      moved, movedBackings := map[], {};
      for i := 0 to |sources|
        invariant moved.Keys == set j | 0 <= j < i :: Rebase(sources[j], oldPath, newPath)
        invariant forall q :: q in moved ==> Carries(State(), oldPath, newPath, Elements(sourceBasePaths), q, moved[q])
        invariant movedBackings ==
                  set j | 0 <= j < i && rows[sources[j]].backing.Some? :: rows[sources[j]].backing.value
      {
        var e, source := rows[sources[i]], sources[i];
        RebaseBack(source, oldPath, newPath);
        if source in sourceBasePaths {
          if e.kind.Modify? {
            e := e.(kind := Kind.Rename, target := if e.target.NoTarget? then Origin(source) else e.target);
          } else if e.kind.Symlink? {
            e := e.(sourceOid := NoOid, sourceMode := 0);
          }
        }
        if e.kind.Mkdir? { e := e.(mode := NormalizeGitDirMode(e.mode)); }
        if e.backing.Some? { movedBackings := movedBackings + {e.backing.value}; }
        moved := moved[Rebase(source, oldPath, newPath) := e];
      }
      assert forall p :: p in LiveUnder(State(), oldPath) ==> p in sources by {
        assert forall p :: p in LiveUnder(State(), oldPath) ==> p in Elements(sources);
      }
    }

    /**
     * ReconcileChecked.  The first pass settles modifies and renames and collects the rename
     * sources the base no longer has; the second settles the other rows with their help.
     */
    method ReconcileChecked(base: Base) returns (err: Error)
      requires Valid()
      modifies this
      ensures Valid()
      ensures Outcome(reliable, old(State()), State(), err, Res(Reconcile(old(State()), base), OK))
    {
      ReconcileKeepsOwned(State(), base);
      var entries := Listed(rows.Keys);
      var toRemove, toUpdate, stale;
      toRemove, toUpdate, stale, err := ModifiesAndRenames(base, entries);
      if err != OK { return; }
      toRemove, toUpdate, err := OtherRows(base, entries, stale, toRemove, toUpdate);
      if err != OK { return; }
      if !reliable { if * { return IOError; } }
      CommitReconcile(base, toRemove, toUpdate);
    }

    method JudgeModify(base: Base, p: Path, removals: set<Path>, updates: map<Path, Entry>)
      returns (toRemove: set<Path>, toUpdate: map<Path, Entry>)
      requires p in rows && rows[p].kind.Modify?
      ensures Judged(RowFate(State(), base, p), p, removals, updates, toRemove, toUpdate)
    {
      toRemove, toUpdate := removals, updates;
      var e := rows[p];
      if p !in base {
        toUpdate := toUpdate[p := e.(kind := Create, sourceOid := NoOid, sourceMode := 0)];
      } else if e.sourceOid != base[p].oid || e.sourceMode != base[p].mode {
        if Matches(e, files, base[p]) {
          toRemove := toRemove + {p};
        } else {
          toUpdate := toUpdate[p := e.(sourceOid := base[p].oid, sourceMode := base[p].mode)];
        }
      }
    }

    method JudgeRename(base: Base, p: Path, removals: set<Path>, updates: map<Path, Entry>)
      returns (toRemove: set<Path>, toUpdate: map<Path, Entry>)
      requires p in rows && rows[p].kind.Rename?
      ensures Judged(RowFate(State(), base, p), p, removals, updates, toRemove, toUpdate)
    {
      toRemove, toUpdate := removals, updates;
      var e := rows[p];
      var source := if e.target.Origin? then e.target.path else p;
      if p in base && source !in base && Matches(e, files, base[p]) {
        toRemove := toRemove + {p};
      } else if source in base {
        if e.sourceOid != base[source].oid || e.sourceMode != base[source].mode {
          toUpdate := toUpdate[p := e.(sourceOid := base[source].oid, sourceMode := base[source].mode)];
        }
      } else {
        var e' := if p in base then e.(kind := Modify, sourceOid := base[p].oid, sourceMode := base[p].mode)
                  else e.(kind := Create, sourceOid := NoOid, sourceMode := 0);
        toUpdate := toUpdate[p := e'.(target := NoTarget)];
      }
    }

    /** First pass: modifies and renames. */
    method ModifiesAndRenames(base: Base, entries: seq<Path>)
      returns (toRemove: set<Path>, toUpdate: map<Path, Entry>, stale: set<Path>, err: Error)
      requires Valid() && Elements(entries) == rows.Keys
      ensures err == OK || (err == IOError && !reliable)
      ensures err == OK ==> Settled(State(), base, FirstPassRows(rows, rows.Keys), toRemove, toUpdate)
      ensures err == OK ==> stale == StaleSources(rows, base)
    {
      toRemove, toUpdate, stale, err := {}, map[], {}, OK;
      ghost var done: set<Path> := {};
      for i := 0 to |entries|
        invariant done == Elements(entries[..i]) && done <= rows.Keys
        invariant Settled(State(), base, FirstPassRows(rows, done), toRemove, toUpdate)
        invariant stale == StaleAmong(rows, base, done)
      {
        var p, e := entries[i], rows[entries[i]];
        assert p in Elements(entries) && Elements(entries[..i + 1]) == done + {p} by {
          assert entries[..i + 1] == entries[..i] + [p];
        }
        if !reliable { if * { return toRemove, toUpdate, stale, IOError; } }
        StaleAmongGrows(rows, base, done, p);
        FirstPassGrows(rows, done, p);
        if FirstPass(e) {
          ghost var removals, updates := toRemove, toUpdate;
          if e.kind.Modify? {
            toRemove, toUpdate := JudgeModify(base, p, toRemove, toUpdate);
          } else {
            toRemove, toUpdate := JudgeRename(base, p, toRemove, toUpdate);
            if SourcePath(p, e) !in base { stale := stale + {SourcePath(p, e)}; }
          }
          VerdictSettles(State(), base, FirstPassRows(rows, done), p, removals, updates, toRemove, toUpdate);
        }
        done := done + {p};
      }
      assert entries[..|entries|] == entries;
    }

    method JudgeOther(base: Base, p: Path, stale: set<Path>, removals: set<Path>, updates: map<Path, Entry>)
      returns (toRemove: set<Path>, toUpdate: map<Path, Entry>)
      requires p in rows && !FirstPass(rows[p]) && stale == StaleSources(rows, base)
      ensures Judged(RowFate(State(), base, p), p, removals, updates, toRemove, toUpdate)
    {
      toRemove, toUpdate := removals, updates;
      var e := rows[p];
      match e.kind {
        case Delete =>
          if (e.target.Origin? && e.target.path != p) || p in stale || (e.target.Origin? && e.target.path in stale)
              || p !in base {
            toRemove := toRemove + {p};
          }
        case Create =>
          if p in base {
            if Matches(e, files, base[p]) {
              toRemove := toRemove + {p};
            } else {
              toUpdate := toUpdate[p := e.(kind := Modify, sourceOid := base[p].oid, sourceMode := base[p].mode)];
            }
          }
        case Mkdir =>
          if p in base && base[p].typ.DirType? { toRemove := toRemove + {p}; }
        case Symlink =>
          if p in base && base[p].typ.LinkType? && (e.sourceOid != base[p].oid || e.sourceMode != base[p].mode) {
            if Matches(e, files, base[p]) {
              toRemove := toRemove + {p};
            } else {
              toUpdate := toUpdate[p := e.(sourceOid := base[p].oid, sourceMode := base[p].mode)];
            }
          }
      }
    }

    /** Second pass: whiteouts, creates, directories and links. */
    method OtherRows(base: Base, entries: seq<Path>, stale: set<Path>, removals: set<Path>, updates: map<Path, Entry>)
      returns (toRemove: set<Path>, toUpdate: map<Path, Entry>, err: Error)
      requires Valid() && Elements(entries) == rows.Keys && stale == StaleSources(rows, base)
      requires Settled(State(), base, FirstPassRows(rows, rows.Keys), removals, updates)
      ensures err == OK || (err == IOError && !reliable)
      ensures err == OK ==> Settled(State(), base, rows.Keys, toRemove, toUpdate)
    {
      toRemove, toUpdate, err := removals, updates, OK;
      ghost var done := FirstPassRows(rows, rows.Keys);
      for i := 0 to |entries|
        invariant forall j :: 0 <= j < |entries| ==> entries[j] in rows
        invariant done == set p | p in rows && (FirstPass(rows[p]) || p in entries[..i])
        invariant Settled(State(), base, done, toRemove, toUpdate)
      {
        var p, e := entries[i], rows[entries[i]];
        assert entries[..i + 1] == entries[..i] + [p];
        if !reliable { if * { return toRemove, toUpdate, IOError; } }
        if !FirstPass(e) {
          ghost var removals, updates := toRemove, toUpdate;
          toRemove, toUpdate := JudgeOther(base, p, stale, toRemove, toUpdate);
          VerdictSettles(State(), base, done, p, removals, updates, toRemove, toUpdate);
        }
        done := done + {p};
      }
    }

    /** The guarded deletes and updates in one transaction, then the backings of what was deleted. */
    method CommitReconcile(base: Base, toRemove: set<Path>, toUpdate: map<Path, Entry>)
      requires Settled(State(), base, rows.Keys, toRemove, toUpdate)
      modifies this
      ensures State() == Reconcile(old(State()), base)
    {
      var doomed := set p | p in toRemove && p in rows && rows[p].backing.Some? :: rows[p].backing.value;
      assert doomed == DroppedBackings(State(), base);
      rows := map p | p in rows && p !in toRemove :: if p in toUpdate then toUpdate[p] else rows[p];
      files := files - doomed;
    }
  }
}
