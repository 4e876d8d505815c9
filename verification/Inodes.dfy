/**
 * The FUSE inode table: two maps, inode id to reference and path to inode id, that stay
 * inverse on the inodes that are not stale.
 */
module Inodes {
  import opened Paths
  import opened Model
  import opened Overlays
  import opened RenameViews

  type InodeId = nat

  const ROOT_ID: InodeId := 1

  datatype Ref = Ref(path: Path, refcnt: int, stale: bool)

  datatype Table = Table(inodes: map<InodeId, Ref>, ids: map<Path, InodeId>, next: InodeId)

  ghost predicate Inverse(t: Table) {
    && (forall p :: p in t.ids ==> t.ids[p] in t.inodes && t.inodes[t.ids[p]].path == p && !t.inodes[t.ids[p]].stale)
    && (forall id :: id in t.inodes && !t.inodes[id].stale ==>
       t.inodes[id].path in t.ids && t.ids[t.inodes[id].path] == id)
    && (forall id :: id in t.inodes ==> id < t.next)
    && ROOT_ID in t.inodes && t.inodes[ROOT_ID].path == ROOT && !t.inodes[ROOT_ID].stale
  }

  function Fresh(): Table {
    Table(map[ROOT_ID := Ref(ROOT, 1, false)], map[ROOT := ROOT_ID], ROOT_ID + 1)
  }

  // ---------- Operations as functions ----------

  function IdFor(t: Table, path: Path): InodeId {
    if path in t.ids then t.ids[path] else t.next
  }

  function Alloc(t: Table, path: Path): Table {
    var id := IdFor(t, path);
    if path in t.ids && id in t.inodes then
      t.(inodes := t.inodes[id := t.inodes[id].(refcnt := t.inodes[id].refcnt + 1)])
    else Table(t.inodes[t.next := Ref(path, 1, false)], t.ids[path := t.next], t.next + 1)
  }

  /** ForgetInode; dropInodeLookup is the case n == 1. */
  function Forget(t: Table, id: InodeId, n: int): Table {
    if id !in t.inodes then t
    else
      var ref := t.inodes[id].(refcnt := t.inodes[id].refcnt - n);
      if ref.refcnt <= 0 && id != ROOT_ID then
        t.(inodes := t.inodes - {id},
           ids := if ref.path in t.ids && t.ids[ref.path] == id then t.ids - {ref.path} else t.ids)
      else t.(inodes := t.inodes[id := ref])
  }

  function MovedRef(ref: Ref, oldPath: Path, newPath: Path): Ref {
    if ref.stale then ref
    else if Under(ref.path, oldPath) then ref.(path := Rebase(ref.path, oldPath, newPath))
    else if Under(ref.path, newPath) then ref.(stale := true)
    else ref
  }

  /** Who answers to a path after a move: what moved there, or what was there and did not move or get replaced. */
  function MovedIds(t: Table, oldPath: Path, newPath: Path): map<Path, InodeId> {
    (map p | p in t.ids && !Under(p, oldPath) && !Under(p, newPath) :: t.ids[p]) +
    map q | q in Arrivals(t, oldPath, newPath) && Under(q, newPath) && Rebase(q, newPath, oldPath) in t.ids ::
      t.ids[Rebase(q, newPath, oldPath)]
  }

  function Arrivals(t: Table, oldPath: Path, newPath: Path): set<Path> {
    set p | p in t.ids && Under(p, oldPath) :: Rebase(p, oldPath, newPath)
  }

  lemma ArrivalsAre(t: Table, oldPath: Path, newPath: Path, q: Path)
    ensures q in Arrivals(t, oldPath, newPath) <==> Under(q, newPath) && Rebase(q, newPath, oldPath) in t.ids
  {
    if q in Arrivals(t, oldPath, newPath) {
      var p :| p in t.ids && Under(p, oldPath) && q == Rebase(p, oldPath, newPath);
      RebaseBack(p, oldPath, newPath);
    }
    if Under(q, newPath) { RebaseBack(q, newPath, oldPath); }
  }

  /** moveInodePath */
  function Move(t: Table, oldPath: Path, newPath: Path): Table {
    t.(inodes := map id | id in t.inodes :: MovedRef(t.inodes[id], oldPath, newPath),
       ids := MovedIds(t, oldPath, newPath))
  }

  // ---------- The maps stay inverse ----------

  lemma AllocKeepsInverse(t: Table, path: Path)
    requires Inverse(t)
    ensures Inverse(Alloc(t, path))
    ensures var t' := Alloc(t, path);
            && path in t'.ids && t'.ids[path] == IdFor(t, path)
            && (path !in t.ids ==> t'.ids[path] !in t.inodes && t'.ids[path] == t.next && t'.next == t.next + 1)
            && forall id :: id in t.inodes ==> id in t'.inodes && t'.inodes[id].path == t.inodes[id].path
  {
  }

  /** Forgetting never unmaps another inode that has taken the path. */
  lemma ForgetKeepsInverse(t: Table, id: InodeId, n: int)
    requires Inverse(t)
    ensures Inverse(Forget(t, id, n))
    ensures forall p :: p in t.ids && t.ids[p] != id ==>
        p in Forget(t, id, n).ids && Forget(t, id, n).ids[p] == t.ids[p]
    ensures id in t.inodes && t.inodes[id].stale ==> Forget(t, id, n).ids == t.ids
  {
  }

  lemma MoveKeepsInverse(t: Table, oldPath: Path, newPath: Path)
    requires Inverse(t) && oldPath != ROOT && newPath != ROOT
    ensures Inverse(Move(t, oldPath, newPath))
  {
    var t' := Move(t, oldPath, newPath);
    forall q | q in t'.ids
      ensures t'.ids[q] in t'.inodes && t'.inodes[t'.ids[q]].path == q && !t'.inodes[t'.ids[q]].stale
    {
      ArrivalsAre(t, oldPath, newPath, q);
      if Under(q, newPath) { RebaseBack(q, newPath, oldPath); }
    }
    forall id | id in t'.inodes && !t'.inodes[id].stale
      ensures t'.inodes[id].path in t'.ids && t'.ids[t'.inodes[id].path] == id
    {
      var p := t.inodes[id].path;
      ArrivalsAre(t, oldPath, newPath, t'.inodes[id].path);
      if Under(p, oldPath) { RebaseBack(p, oldPath, newPath); }
    }
  }

  /**
   * What a rename must make of an inode that names a path: below the old path it keeps its id
   * and count and names the same node at the new place, below the destination it becomes stale,
   * anywhere else it is untouched and still names what it named.
   */
  ghost predicate IdentityAt(before: Overlay, after: Overlay, base: Base, t: Table, now: Table, oldPath: Path,
      newPath: Path, id: InodeId)
    requires id in t.inodes
  {
    var ref := t.inodes[id];
    && id in now.inodes
    && if Under(ref.path, oldPath) then
         && now.inodes[id] == ref.(path := Rebase(ref.path, oldPath, newPath))
         && Resolve(after, base, now.inodes[id].path) == Resolve(before, base, ref.path)
       else if Under(ref.path, newPath) then now.inodes[id] == ref.(stale := true)
       else now.inodes[id] == ref && Resolve(after, base, ref.path) == Resolve(before, base, ref.path)
  }

  /** Inode identity follows a directory rename. */
  lemma IdentityFollowsRename(before: Overlay, after: Overlay, base: Base, t: Table, oldPath: Path, newPath: Path,
      id: InodeId)
    requires Inverse(t) && id in t.inodes && !t.inodes[id].stale
    requires TreeMoved(before, after, base, oldPath, newPath)
    ensures IdentityAt(before, after, base, t, Move(t, oldPath, newPath), oldPath, newPath, id)
  {
    var p := t.inodes[id].path;
    if Under(p, oldPath) { RebaseBack(p, oldPath, newPath); }
  }

  /** And the rename of a file or link onto none or another: nothing lies below either. */
  lemma IdentityFollowsLeaf(before: Overlay, after: Overlay, base: Base, t: Table, oldPath: Path, newPath: Path,
      left: Option<Node>, id: InodeId)
    requires Inverse(t) && id in t.inodes && !t.inodes[id].stale && oldPath != newPath
    requires TreeShaped(before, base) && NodeMovedLeaving(before, after, base, oldPath, newPath, left)
    requires Resolve(before, base, oldPath).Some? && Resolve(before, base, oldPath) != Some(DirNode)
    requires Resolve(before, base, newPath) != Some(DirNode)
    ensures IdentityAt(before, after, base, t, Move(t, oldPath, newPath), oldPath, newPath, id)
  {
    var p := t.inodes[id].path;
    if Under(p, oldPath) {
      UnderSplits(p, oldPath);
      if p == oldPath {
        assert Rebase(p, oldPath, newPath) == newPath;
      } else {
        BelowLeaves(before, base, oldPath, newPath, p);
      }
    }
  }

  lemma BelowLeaves(before: Overlay, base: Base, oldPath: Path, newPath: Path, p: Path)
    requires TreeShaped(before, base) && StrictlyUnder(p, oldPath)
    requires Resolve(before, base, oldPath).Some? && Resolve(before, base, oldPath) != Some(DirNode)
    requires Resolve(before, base, newPath) != Some(DirNode)
    ensures var q := Rebase(p, oldPath, newPath);
            q != oldPath && q != newPath && Resolve(before, base, p) == None && Resolve(before, base, q) == None
  {
    RebaseBack(p, oldPath, newPath);
    var q := Rebase(p, oldPath, newPath);
    NothingBelow(before, base, oldPath, p);
    assert StrictlyUnder(q, newPath);
    NothingBelow(before, base, newPath, q);
  }

  // ---------- Reference counts over runs ----------

  /** What the kernel does; it never forgets more than it looked up. */
  datatype Event = Looked(path: Path) | Forgot(id: InodeId, n: nat) | Moved(oldPath: Path, newPath: Path)

  /** References the kernel holds, per inode. */
  type Held = map<InodeId, nat>

  function HeldBy(held: Held, id: InodeId): nat {
    if id in held then held[id] else 0
  }

  predicate Legal(t: Table, held: Held, e: Event) {
    match e
    case Looked(_) => true
    case Forgot(id, n) => n <= HeldBy(held, id)
    case Moved(oldPath, newPath) => oldPath != ROOT && newPath != ROOT
  }

  function Apply(t: Table, e: Event): Table {
    match e
    case Looked(path) => Alloc(t, path)
    case Forgot(id, n) => Forget(t, id, n)
    case Moved(oldPath, newPath) => Move(t, oldPath, newPath)
  }

  function Count(t: Table, held: Held, e: Event): Held {
    match e
    case Looked(path) => held[IdFor(t, path) := HeldBy(held, IdFor(t, path)) + 1]
    case Forgot(id, n) => if n <= HeldBy(held, id) then held[id := HeldBy(held, id) - n] else held
    case Moved(_, _) => held
  }

  /** Reference counts are the kernel's references, plus the table's own for the root. */
  ghost predicate Counted(t: Table, held: Held) {
    && (forall id :: id in t.inodes ==> t.inodes[id].refcnt == HeldBy(held, id) + if id == ROOT_ID then 1 else 0)
    && (forall id :: id in t.inodes && id != ROOT_ID ==> HeldBy(held, id) > 0)
    && (forall id :: id !in t.inodes ==> HeldBy(held, id) == 0)
  }

  lemma LookKeepsCounts(t: Table, held: Held, path: Path)
    requires Inverse(t) && Counted(t, held)
    ensures Counted(Alloc(t, path), Count(t, held, Looked(path)))
  {
  }

  lemma ForgetKeepsCounts(t: Table, held: Held, id: InodeId, n: nat)
    requires Inverse(t) && Counted(t, held) && n <= HeldBy(held, id)
    ensures Counted(Forget(t, id, n), Count(t, held, Forgot(id, n)))
  {
    var t', held' := Forget(t, id, n), Count(t, held, Forgot(id, n));
    assert forall i :: i != id ==> HeldBy(held', i) == HeldBy(held, i);
    assert forall i :: i != id ==> (i in t'.inodes <==> i in t.inodes);
  }

  lemma StepKeepsCounts(t: Table, held: Held, e: Event)
    requires Inverse(t) && Counted(t, held) && Legal(t, held, e)
    ensures Inverse(Apply(t, e)) && Counted(Apply(t, e), Count(t, held, e)) && t.next <= Apply(t, e).next
  {
    match e
    case Looked(path) =>
      AllocKeepsInverse(t, path);
      LookKeepsCounts(t, held, path);
    case Forgot(id, n) =>
      ForgetKeepsInverse(t, id, n);
      ForgetKeepsCounts(t, held, id, n);
    case Moved(oldPath, newPath) => MoveKeepsInverse(t, oldPath, newPath);
  }

  ghost predicate LegalRun(t: Table, held: Held, events: seq<Event>)
    decreases |events|
  {
    events == [] || (Legal(t, held, events[0]) && LegalRun(Apply(t, events[0]), Count(t, held, events[0]), events[1..]))
  }

  ghost function After(t: Table, held: Held, events: seq<Event>): (Table, Held)
    decreases |events|
  {
    if events == [] then (t, held) else After(Apply(t, events[0]), Count(t, held, events[0]), events[1..])
  }

  /**
   * Over every legal run the maps stay inverse, an inode the kernel still references stays in
   * the table, and the next id is above every id ever handed out, so none is handed out twice.
   */
  lemma {:induction false} TableOverRuns(t: Table, held: Held, events: seq<Event>)
    requires Inverse(t) && Counted(t, held) && LegalRun(t, held, events)
    ensures var (t', held') := After(t, held, events);
            && Inverse(t') && Counted(t', held') && t.next <= t'.next
            && (forall id :: HeldBy(held', id) > 0 ==> id in t'.inodes)
            && (forall id :: id in t.inodes ==> id < t'.next)
    decreases |events|
  {
    if events != [] {
      StepKeepsCounts(t, held, events[0]);
      TableOverRuns(Apply(t, events[0]), Count(t, held, events[0]), events[1..]);
    }
  }

  // ---------- The table in place ----------

  class InodeTable {
    var inodes: map<InodeId, Ref>
    var pathToInode: map<Path, InodeId>
    var nextInodeID: InodeId
    var dirHandles: map<nat, Path>

    function State(): Table
      reads this
    {
      Table(inodes, pathToInode, nextInodeID)
    }

    ghost predicate Valid()
      reads this
    {
      Inverse(State())
    }

    constructor ()
      ensures Valid() && State() == Fresh() && dirHandles == map[]
    {
      inodes := map[ROOT_ID := Ref(ROOT, 1, false)];
      pathToInode := map[ROOT := ROOT_ID];
      nextInodeID := ROOT_ID + 1;
      dirHandles := map[];
    }

    method AllocInode(path: Path) returns (id: InodeId)
      requires Valid()
      modifies this
      ensures Valid() && State() == Alloc(old(State()), path) && id == IdFor(old(State()), path)
      ensures dirHandles == old(dirHandles)
    {
      AllocKeepsInverse(State(), path);
      if path in pathToInode {
        id := pathToInode[path];
        if id in inodes {
          inodes := inodes[id := inodes[id].(refcnt := inodes[id].refcnt + 1)];
          return;
        }
      }
      id := nextInodeID;
      nextInodeID := nextInodeID + 1;
      inodes := inodes[id := Ref(path, 1, false)];
      pathToInode := pathToInode[path := id];
    }

    method ForgetInode(id: InodeId, n: nat)
      requires Valid()
      modifies this
      ensures Valid() && State() == Forget(old(State()), id, n) && dirHandles == old(dirHandles)
    {
      ForgetKeepsInverse(State(), id, n);
      if id !in inodes { return; }
      var ref := inodes[id];
      ref := ref.(refcnt := ref.refcnt - n);
      inodes := inodes[id := ref];
      if ref.refcnt <= 0 && id != ROOT_ID {
        inodes := inodes - {id};
        assert inodes == old(inodes) - {id};
        if ref.path in pathToInode && pathToInode[ref.path] == id { pathToInode := pathToInode - {ref.path}; }
      }
    }

    /** Inodes at or below the destination that do not move lose their path and become stale. */
    method RetireReplaced(oldPath: Path, newPath: Path, movingIDs: set<InodeId>)
      requires Valid()
      requires forall p :: p in pathToInode ==> (pathToInode[p] in movingIDs <==> Under(p, oldPath))
      modifies this`inodes, this`pathToInode
      ensures Retired(old(State()), oldPath, DestinationPaths(old(pathToInode), newPath), State())
    {
      ghost var start := State();
      var rest := DestinationPaths(pathToInode, newPath);
      ghost var done: set<Path> := {};
      while rest != {}
        invariant rest !! done && rest + done == DestinationPaths(start.ids, newPath)
        invariant Retired(start, oldPath, done, State())
        decreases rest
      {
        var p :| p in rest;
        RetireOne(start, oldPath, done, State(), p);
        var id := pathToInode[p];
        if id !in movingIDs {
          inodes := inodes[id := inodes[id].(stale := true)];
          pathToInode := pathToInode - {p};
        }
        rest, done := rest - {p}, done + {p};
      }
    }

    /** The moving inodes give up their old paths and answer to the new ones. */
    method Rehome(oldPath: Path, newPath: Path, moves: map<Path, InodeId>)
      requires forall p :: p in moves ==> Under(p, oldPath) && Answers(State(), p) && pathToInode[p] == moves[p]
      requires forall id :: id in inodes && !inodes[id].stale && inodes[id].path in moves ==>
          id == moves[inodes[id].path]
      modifies this`inodes, this`pathToInode
      ensures Rehomed(old(State()), oldPath, newPath, moves.Keys, moves.Keys, State())
    {
      ghost var retired := State();
      DepartureStarts(retired, oldPath, newPath, moves.Keys);
      pathToInode := pathToInode - moves.Keys;
      var rest := moves.Keys;
      ghost var done: set<Path> := {};
      while rest != {}
        invariant rest !! done && rest + done == moves.Keys
        invariant Rehomed(retired, oldPath, newPath, moves.Keys, done, State())
        decreases rest
      {
        var p :| p in rest;
        RehomeOne(retired, oldPath, newPath, moves.Keys, done, State(), p);
        inodes := inodes[moves[p] := inodes[moves[p]].(path := Rebase(p, oldPath, newPath))];
        pathToInode := pathToInode[Rebase(p, oldPath, newPath) := moves[p]];
        rest, done := rest - {p}, done + {p};
      }
    }

    method MoveInodePath(oldPath: Path, newPath: Path)
      requires Valid() && oldPath != ROOT && newPath != ROOT
      modifies this
      ensures Valid() && State() == Move(old(State()), oldPath, newPath)
      ensures dirHandles.Keys == old(dirHandles.Keys)
      ensures forall h :: h in dirHandles ==>
                dirHandles[h] == if Under(old(dirHandles[h]), oldPath) then Rebase(old(dirHandles[h]), oldPath, newPath)
                    else old(dirHandles[h])
    {
      MoveKeepsInverse(State(), oldPath, newPath);
      MoveMappings(oldPath, newPath);
      dirHandles := map h | h in dirHandles ::
        if Under(dirHandles[h], oldPath) then Rebase(dirHandles[h], oldPath, newPath) else dirHandles[h];
    }

    method MoveMappings(oldPath: Path, newPath: Path)
      requires Valid()
      modifies this`inodes, this`pathToInode
      ensures State() == Move(old(State()), oldPath, newPath)
    {
      ghost var start := State();
      var moves := map p | p in pathToInode && Under(p, oldPath) :: pathToInode[p];
      var movingIDs := set p | p in moves :: moves[p];
      assert moves.Keys == set p | p in start.ids && Under(p, oldPath);
      assert movingIDs == set p | p in moves.Keys :: start.ids[p];
      MovingIdsAre(start, oldPath, moves.Keys, movingIDs);
      RetireReplaced(oldPath, newPath, movingIDs);
      ghost var retired := State();
      RetiredStillAnswers(start, oldPath, DestinationPaths(start.ids, newPath), retired);
      Rehome(oldPath, newPath, moves);
      RetiredThenRehomed(start, oldPath, newPath, retired, State(), moves.Keys);
    }
  }

  function DestinationPaths(ids: map<Path, InodeId>, newPath: Path): set<Path> {
    set p | p in ids && Under(p, newPath)
  }

  lemma MovingIdsAre(t: Table, oldPath: Path, moves: set<Path>, movingIDs: set<InodeId>)
    requires Inverse(t) && moves == set p | p in t.ids && Under(p, oldPath)
    requires movingIDs == set p | p in moves :: t.ids[p]
    ensures forall p :: p in t.ids ==> (t.ids[p] in movingIDs <==> Under(p, oldPath))
  {
  }

  // ---------- The two loops of a move ----------

  /** The table after the mappings in `done` were retired, unless they are moving. */
  ghost predicate Retired(start: Table, oldPath: Path, done: set<Path>, now: Table) {
    && now.next == start.next && now.inodes.Keys == start.inodes.Keys
    && (forall id :: id in start.inodes ==>
          var ref := start.inodes[id];
          now.inodes[id] == if !ref.stale && ref.path in done && !Under(ref.path, oldPath) then ref.(stale := true)
              else ref)
    && (forall p :: p in now.ids <==> p in start.ids && (Under(p, oldPath) || p !in done))
    && (forall p :: p in now.ids ==> now.ids[p] == start.ids[p])
  }

  lemma RetireOne(start: Table, oldPath: Path, done: set<Path>, now: Table, p: Path)
    requires Inverse(start) && Retired(start, oldPath, done, now) && p in start.ids && p !in done
    ensures p in now.ids && now.ids[p] in now.inodes
    ensures var id := now.ids[p];
            Retired(start, oldPath, done + {p},
              if Under(p, oldPath) then now
              else now.(inodes := now.inodes[id := now.inodes[id].(stale := true)], ids := now.ids - {p}))
  {
  }

  /** The table after the moving paths in `done` arrived, all moving paths having departed. */
  ghost predicate Rehomed(retired: Table, oldPath: Path, newPath: Path, moves: set<Path>, done: set<Path>, now: Table) {
    && now.next == retired.next && now.inodes.Keys == retired.inodes.Keys
    && (forall id :: id in retired.inodes ==>
          var ref := retired.inodes[id];
          now.inodes[id] == if !ref.stale && ref.path in done && Under(ref.path, oldPath)
                            then ref.(path := Rebase(ref.path, oldPath, newPath)) else ref)
    && (forall q :: q in now.ids <==> ArrivesAt(oldPath, newPath, done, q) || (q in retired.ids && q !in moves))
    && (forall q :: q in now.ids ==>
          if ArrivesAt(oldPath, newPath, done, q)
          then Rebase(q, newPath, oldPath) in retired.ids && now.ids[q] == retired.ids[Rebase(q, newPath, oldPath)]
          else q in retired.ids && now.ids[q] == retired.ids[q])
  }

  predicate ArrivesAt(oldPath: Path, newPath: Path, done: set<Path>, q: Path) {
    Under(q, newPath) && Rebase(q, newPath, oldPath) in done
  }

  lemma DepartureStarts(retired: Table, oldPath: Path, newPath: Path, moves: set<Path>)
    ensures Rehomed(retired, oldPath, newPath, moves, {}, retired.(ids := retired.ids - moves))
  {
  }

  /** Inverse but for stale inodes, which may name any path. */
  ghost predicate Answers(t: Table, p: Path) {
    p in t.ids && t.ids[p] in t.inodes && t.inodes[t.ids[p]].path == p && !t.inodes[t.ids[p]].stale
  }

  lemma RehomeOne(retired: Table, oldPath: Path, newPath: Path, moves: set<Path>, done: set<Path>, now: Table, p: Path)
    requires Rehomed(retired, oldPath, newPath, moves, done, now)
    requires p !in done && Under(p, oldPath) && Answers(retired, p)
    requires forall id :: id in retired.inodes && !retired.inodes[id].stale && retired.inodes[id].path == p ==>
        id == retired.ids[p]
    ensures var id, target := retired.ids[p], Rebase(p, oldPath, newPath);
            && id in now.inodes
            && Rehomed(retired, oldPath, newPath, moves, done + {p},
                 now.(inodes := now.inodes[id := now.inodes[id].(path := target)], ids := now.ids[target := id]))
  {
    RebaseBack(p, oldPath, newPath);
    var target := Rebase(p, oldPath, newPath);
    forall q
      ensures ArrivesAt(oldPath, newPath, done + {p}, q) <==> ArrivesAt(oldPath, newPath, done, q) || q == target
    {
      if Under(q, newPath) { RebaseBack(q, newPath, oldPath); }
    }
  }

  lemma RetiredStillAnswers(start: Table, oldPath: Path, done: set<Path>, now: Table)
    requires Inverse(start) && Retired(start, oldPath, done, now)
    ensures forall p :: p in start.ids && Under(p, oldPath) ==> Answers(now, p) && now.ids[p] == start.ids[p]
    ensures forall id :: id in now.inodes && !now.inodes[id].stale && Under(now.inodes[id].path, oldPath) ==>
              now.inodes[id].path in start.ids && id == start.ids[now.inodes[id].path]
  {
  }

  lemma MovedInodes(start: Table, oldPath: Path, newPath: Path, retired: Table, now: Table, moves: set<Path>)
    requires Inverse(start) && Retired(start, oldPath, DestinationPaths(start.ids, newPath), retired)
    requires moves == (set p | p in start.ids && Under(p, oldPath))
        && Rehomed(retired, oldPath, newPath, moves, moves, now)
    ensures now.inodes == Move(start, oldPath, newPath).inodes
  {
    forall id | id in start.inodes ensures now.inodes[id] == MovedRef(start.inodes[id], oldPath, newPath) {
      var ref := start.inodes[id];
      assert !ref.stale ==> ref.path in start.ids;
    }
  }

  lemma MovedIdAt(t: Table, oldPath: Path, newPath: Path, q: Path)
    ensures var ids := MovedIds(t, oldPath, newPath);
            if Under(q, newPath) then
              var p := Rebase(q, newPath, oldPath);
              (q in ids <==> p in t.ids) && (q in ids ==> ids[q] == t.ids[p])
            else (q in ids <==> q in t.ids && !Under(q, oldPath)) && (q in ids ==> ids[q] == t.ids[q])
  {
    ArrivalsAre(t, oldPath, newPath, q);
    if Under(q, newPath) { RebaseBack(q, newPath, oldPath); }
  }

  lemma RehomedIdAt(start: Table, oldPath: Path, newPath: Path, retired: Table, now: Table, moves: set<Path>, q: Path)
    requires Retired(start, oldPath, DestinationPaths(start.ids, newPath), retired)
    requires moves == (set p | p in start.ids && Under(p, oldPath))
        && Rehomed(retired, oldPath, newPath, moves, moves, now)
    ensures if Under(q, newPath) then
              var p := Rebase(q, newPath, oldPath);
              (q in now.ids <==> p in start.ids) && (q in now.ids ==> now.ids[q] == start.ids[p])
            else
              (q in now.ids <==> q in start.ids && !Under(q, oldPath)) && (q in now.ids ==> now.ids[q] == start.ids[q])
  {
  }

  lemma RetiredThenRehomed(start: Table, oldPath: Path, newPath: Path, retired: Table, now: Table, moves: set<Path>)
    requires Inverse(start) && Retired(start, oldPath, DestinationPaths(start.ids, newPath), retired)
    requires moves == (set p | p in start.ids && Under(p, oldPath))
        && Rehomed(retired, oldPath, newPath, moves, moves, now)
    ensures now == Move(start, oldPath, newPath)
  {
    MovedInodes(start, oldPath, newPath, retired, now, moves);
    var ids := MovedIds(start, oldPath, newPath);
    forall q ensures (q in now.ids <==> q in ids) && (q in ids ==> now.ids[q] == ids[q]) {
      MovedIdAt(start, oldPath, newPath, q);
      RehomedIdAt(start, oldPath, newPath, retired, now, moves, q);
    }
    SameIds(now.ids, ids);
  }

  lemma SameIds(a: map<Path, InodeId>, b: map<Path, InodeId>)
    requires forall q :: (q in a <==> q in b) && (q in b ==> a[q] == b[q])
    ensures a == b
  {
  }
}
