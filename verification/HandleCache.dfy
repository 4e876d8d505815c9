/**
 * The cached file of open handles on one path, under concurrent reads, writes and generation
 * switches.
 *
 * One step is one critical section of a handle, one overlay lookup, or one load of the
 * generation.  A switch reconciles under the transition lock, so it may drop the path's overlay
 * row when the new base holds the row's content; BaseCacheFile and the engine's Write hold that
 * lock shared from their lookup on.  Handles are opened only while no write is in progress, and
 * the path is neither removed nor renamed; for that see OpenFiles.
 */
module HandleCache {
  import opened Model

  type Tid = nat

  type HandleId = nat

  type FileId = nat

  /** What a reader gets: the file's bytes, or nothing where there is no file. */
  type Seen = Option<Bytes>

  /** cacheFile and cacheGeneration: none, a base file of a generation, or a backing file (-1). */
  datatype Cache = NoFile | BaseFile(gen: nat) | BackingFile(id: FileId)

  datatype Handle = Handle(cache: Cache, stamp: nat)

  datatype Pc =
    | Resting
    | Started(h: HandleId)
    | Checking(h: HandleId, gen: nat)
    | Recapturing(h: HandleId)                          // dropped a base file of another generation
    | LookingUp(h: HandleId, stamp: nat)                // about to call BaseCacheFile
    | Opening(h: HandleId, stamp: nat)                  // in BaseCacheFile, no row was found
    | Installing(h: HandleId, stamp: nat, gen: nat)
    | Falling(h: HandleId)                              // engine.Read
    | Returned(value: Seen)
    | Closing(rest: set<HandleId>)                      // closeCachedFilesForPath before the write
    | Creating                                          // in Write, neither row nor base node was found
    | Promoted                                          // in Write, the row is there
    | Writing                                           // the data is written
    | Reclosing(rest: set<HandleId>)                    // closeCachedFilesForPath after it

  datatype State = State(
    handles: map<HandleId, Handle>,
    row: Option<FileId>,            // the path's live overlay row names this backing file
    files: map<FileId, Bytes>,      // backing files; open handles keep them readable
    bases: seq<Seen>,               // the path's content in each generation so far
    threads: map<Tid, Pc>,
    recent: set<Seen>,              // history, see Noted
    since: map<Tid, set<Seen>>,
    seen: map<Tid, set<Seen>>)

  datatype Action =
    | Open(h: HandleId)
    | Switch(newBase: Seen, drop: bool)
    | BeginRead(h: HandleId)
    | LoadGeneration
    | Check
    | Recapture
    | Lookup
    | OpenBase
    | Install
    | FallBack
    | EndRead
    | BeginWrite
    | CloseOne(h: HandleId)
    | Promote(id: FileId)           // ensureOverlay
    | Create(id: FileId)
    | WriteData(off: nat, data: Bytes)
    | FailWrite
    | BeginReclose
    | WriteReturns

  // ---------- What the path holds ----------

  function Gen(s: State): int {
    |s.bases| - 1
  }

  function BaseNow(s: State): Seen {
    if s.bases == [] then None else s.bases[|s.bases| - 1]
  }

  function FileAt(s: State, id: FileId): Seen {
    if id in s.files then Some(s.files[id]) else None
  }

  /** What anybody who looks the path up reads at this moment. */
  function Now(s: State): Seen {
    if s.row.Some? then FileAt(s, s.row.value) else BaseNow(s)
  }

  function Serves(s: State, cache: Cache): Seen {
    match cache
    case NoFile => None
    case BaseFile(gen) => if gen < |s.bases| then s.bases[gen] else None
    case BackingFile(id) => FileAt(s, id)
  }

  /** The file of a row that a switch has dropped. */
  predicate Dangling(s: State, cache: Cache) {
    cache.BackingFile? && s.row != Some(cache.id)
  }

  /** The handle keeps such a file, and the path holds something else by now. */
  predicate Stale(s: State, h: HandleId)
    requires h in s.handles
  {
    var cache := s.handles[h].cache;
    Dangling(s, cache) && FileAt(s, cache.id) != Now(s)
  }

  // ---------- Steps ----------

  predicate IsWriting(pc: Pc) {
    pc.Closing? || pc.Creating? || pc.Promoted? || pc.Writing? || pc.Reclosing?
  }

  /** The transition lock is held shared. */
  predicate HoldsTransition(pc: Pc) {
    pc.Opening? || pc.Creating? || pc.Promoted?
  }

  ghost predicate NoWriteInProgress(s: State) {
    forall t :: t in s.threads ==> !IsWriting(s.threads[t])
  }

  /** Every write whose data is in has returned. */
  predicate Quiet(s: State) {
    forall t :: t in s.threads ==> !s.threads[t].Writing? && !s.threads[t].Reclosing?
  }

  ghost predicate Enabled(s: State, t: Tid, a: Action) {
    t in s.threads &&
    var pc := s.threads[t];
    match a
    case Open(h) => pc.Resting? && h !in s.handles && NoWriteInProgress(s) && Now(s).Some?
    case Switch(newBase, drop) =>
      && pc.Resting? && (forall u :: u in s.threads ==> !HoldsTransition(s.threads[u]))
      && (drop ==> s.row.Some? && newBase == Now(s))
    case BeginRead(h) => pc.Resting? && h in s.handles
    case LoadGeneration => pc.Started?
    case Check => pc.Checking? && pc.h in s.handles
    case Recapture => pc.Recapturing? && pc.h in s.handles
    case Lookup => pc.LookingUp?
    case OpenBase => pc.Opening?
    case Install => pc.Installing? && pc.h in s.handles
    case FallBack => pc.Falling?
    case EndRead => pc.Returned?
    case BeginWrite => pc.Resting?
    case CloseOne(h) => (pc.Closing? || pc.Reclosing?) && h in pc.rest && h in s.handles
    case Promote(id) => pc.Closing? && pc.rest == {} && id !in s.files
    case Create(id) => pc.Creating? && id !in s.files
    case WriteData(_, _) => pc.Promoted? && Now(s).Some?
    case FailWrite => (pc.Closing? && pc.rest == {}) || pc.Creating? || pc.Promoted?
    case BeginReclose => pc.Writing?
    case WriteReturns => pc.Reclosing? && pc.rest == {}
  }

  /** closeCachedFile */
  function Invalidated(h: Handle): Handle {
    Handle(NoFile, h.stamp + 1)
  }

  function Stored(s: State, id: FileId, data: Bytes): State {
    s.(row := Some(id), files := s.files[id := data])
  }

  datatype Moved = Moved(s: State, pc: Pc)

  function Move(s: State, t: Tid, a: Action): Moved
    requires Enabled(s, t, a)
  {
    var pc := s.threads[t];
    match a
    case Open(h) =>
      var cache := if s.row.Some? then BackingFile(s.row.value) else BaseFile(|s.bases| - 1);
      Moved(s.(handles := s.handles[h := Handle(cache, 0)]), pc)
    case Switch(newBase, drop) => Moved(s.(bases := s.bases + [newBase], row := if drop then None else s.row), pc)
    case BeginRead(h) => Moved(s, Started(h))
    case LoadGeneration => Moved(s, Checking(pc.h, if s.bases == [] then 0 else |s.bases| - 1))
    case Check =>
      var cache := s.handles[pc.h].cache;
      if cache.BackingFile? || cache == BaseFile(pc.gen) then Moved(s, Returned(Serves(s, cache)))
      else if cache.BaseFile? then
        Moved(s.(handles := s.handles[pc.h := Invalidated(s.handles[pc.h])]), Recapturing(pc.h))
      else Moved(s, LookingUp(pc.h, s.handles[pc.h].stamp))
    case Recapture => Moved(s, LookingUp(pc.h, s.handles[pc.h].stamp))
    case Lookup => Moved(s, if s.row.Some? then Falling(pc.h) else Opening(pc.h, pc.stamp))
    case OpenBase =>
      Moved(s, if BaseNow(s).None? then Returned(None) else Installing(pc.h, pc.stamp, |s.bases| - 1))
    case Install =>
      var h := s.handles[pc.h];
      if h.stamp != pc.stamp || pc.gen != Gen(s) then Moved(s, Falling(pc.h))
      else Moved(s.(handles := s.handles[pc.h := h.(cache := BaseFile(pc.gen))]),
          Returned(Serves(s, BaseFile(pc.gen))))
    case FallBack => Moved(s, Returned(Now(s)))
    case EndRead => Moved(s, Resting)
    case BeginWrite => Moved(s, Closing(s.handles.Keys))
    case CloseOne(h) => Moved(s.(handles := s.handles[h := Invalidated(s.handles[h])]), pc.(rest := pc.rest - {h}))
    case Promote(id) =>
      if s.row.Some? then Moved(s, Promoted)
      else if BaseNow(s).None? then Moved(s, Creating)
      else Moved(Stored(s, id, BaseNow(s).value), Promoted)
    case Create(id) => Moved(Stored(s, id, []), Promoted)
    case WriteData(off, data) =>
      Moved(if s.row.Some? then Stored(s, s.row.value, Spliced(Now(s).value, off, data)) else s, Writing)
    case FailWrite => Moved(s, Resting)
    case BeginReclose => Moved(s, Reclosing(s.handles.Keys))
    case WriteReturns => Moved(s, Resting)
  }

  function Of(sets: map<Tid, set<Seen>>, t: Tid): set<Seen> {
    if t in sets then sets[t] else {}
  }

  /**
   * The history.  `since` of a writer: what the path has held since it wrote its data.  `recent`:
   * what it has held since the data of the last write that has returned.  `since` of a reader: the
   * same as of the read's start.  `seen`: what it has held during the read, if no write's data was
   * in without the write having returned when the read began.
   */
  function Noted(was: State, t: Tid, a: Action, s: State): State {
    var now := {Now(s)};
    var recent := if a.WriteReturns? then was.recent * Of(was.since, t) else was.recent;
    var since :=
      if a.BeginRead? then was.since[t := was.recent]
      else if a.WriteData? then was.since[t := {}]
      else was.since;
    var seen := if a.BeginRead? then was.seen[t := if Quiet(was) then {} else was.recent] else was.seen;
    s.(recent := recent + now,
       since := map u | u in since :: since[u] + now,
       seen := map u | u in seen :: seen[u] + now)
  }

  function Next(s: State, t: Tid, a: Action): State
    requires Enabled(s, t, a)
  {
    var m := Move(s, t, a);
    Noted(s, t, a, m.s.(threads := s.threads[t := m.pc]))
  }

  // ---------- Invariant ----------

  /** A reader on its way to install the current base file in `h`, with nothing invalidated so far. */
  predicate Pending(s: State, t: Tid, h: HandleId) {
    && t in s.threads && h in s.handles
    && (s.threads[t] == Opening(h, s.handles[h].stamp) ||
        (s.threads[t].Installing? && s.threads[t] == Installing(h, s.handles[h].stamp, s.threads[t].gen)
            && s.threads[t].gen == Gen(s)))
  }

  /** The handle serves, or may come to serve, the base file of the current generation. */
  ghost predicate OffersBase(s: State, h: HandleId) {
    && h in s.handles && BaseNow(s).Some?
    && ((s.handles[h].cache.BaseFile? && s.handles[h].cache.gen == Gen(s)) || exists t :: Pending(s, t, h))
  }

  /** Whatever the handle may serve from its cache is in the set. */
  ghost predicate Covered(s: State, values: set<Seen>, h: HandleId) {
    && (OffersBase(s, h) ==> BaseNow(s) in values)
    && (h in s.handles && s.handles[h].cache.BackingFile? ==> FileAt(s, s.handles[h].cache.id) in values)
  }

  ghost predicate AllCovered(s: State, values: set<Seen>, rest: set<HandleId>) {
    Now(s) in values && forall h :: h in s.handles && h !in rest ==> Covered(s, values, h)
  }

  ghost predicate CacheSound(s: State, h: HandleId)
    requires h in s.handles
  {
    match s.handles[h].cache
    case NoFile => true
    case BaseFile(gen) => gen < |s.bases| && s.bases[gen].Some?
    case BackingFile(id) => id in s.files
  }

  /** A reader has found no file it could serve from; an opened backing file never comes back. */
  ghost predicate PastCheck(s: State, h: HandleId, stamp: nat) {
    h in s.handles && stamp <= s.handles[h].stamp && !s.handles[h].cache.BackingFile?
  }

  ghost predicate PcSound(s: State, pc: Pc) {
    match pc
    case Started(h) => h in s.handles
    case Checking(h, gen) => h in s.handles && gen < |s.bases|
    case Recapturing(h) => PastCheck(s, h, 0)
    case LookingUp(h, stamp) => PastCheck(s, h, stamp)
    case Opening(h, stamp) => PastCheck(s, h, stamp)
    case Installing(h, stamp, gen) => PastCheck(s, h, stamp) && gen < |s.bases| && s.bases[gen].Some?
    case Closing(rest) => rest <= s.handles.Keys
    case Creating => BaseNow(s).None?
    case Promoted => s.row.Some?
    case Reclosing(rest) => rest <= s.handles.Keys
    case _ => true
  }

  ghost predicate CachesSound(s: State) {
    && s.bases != [] && (s.row.Some? ==> s.row.value in s.files)
    && (forall h :: h in s.handles ==> CacheSound(s, h))
  }

  ghost predicate Sound(s: State) {
    && CachesSound(s)
    && (forall t :: t in s.threads ==> PcSound(s, s.threads[t]))
  }

  predicate Reading(pc: Pc) {
    pc.Started? || pc.Checking? || pc.Recapturing? || pc.LookingUp? || pc.Opening? || pc.Installing? || pc.Falling?
  }

  /** A cached base file of the generation a reader has loaded, which may be an older one. */
  ghost predicate HitCovered(s: State, pc: Pc, values: set<Seen>) {
    && (pc.Checking? && pc.h in s.handles && s.handles[pc.h].cache == BaseFile(pc.gen) ==>
       Serves(s, BaseFile(pc.gen)) in values)
    && (pc.Opening? ==> BaseNow(s) in values)
  }

  /** What a thread's history holds. */
  ghost predicate Recorded(s: State, t: Tid, pc: Pc) {
    && (Reading(pc) ==> s.recent <= Of(s.since, t) && HitCovered(s, pc, Of(s.since, t)))
    && (Reading(pc) ==>
          && Now(s) in Of(s.seen, t) && HitCovered(s, pc, Of(s.seen, t))
          && (OffersBase(s, pc.h) ==> BaseNow(s) in Of(s.seen, t)))
    && (pc.Returned? ==> pc.value in Of(s.since, t))
    && (pc.Writing? ==> Now(s) in Of(s.since, t))
    && (pc.Reclosing? ==> AllCovered(s, Of(s.since, t), pc.rest))
  }

  /** A write whose data is in, and which has yet to invalidate `h`. */
  predicate Retiring(s: State, t: Tid, h: HandleId) {
    t in s.threads && (s.threads[t].Writing? || (s.threads[t].Reclosing? && h in s.threads[t].rest))
  }

  /** A handle offers outdated base content only while such a write is under way. */
  ghost predicate OffersFresh(s: State) {
    forall h :: OffersBase(s, h) && BaseNow(s) != Now(s) ==> exists t :: Retiring(s, t, h)
  }

  ghost predicate Inv(s: State) {
    && Sound(s) && AllCovered(s, s.recent, {}) && OffersFresh(s)
    && forall t :: t in s.threads ==> Recorded(s, t, s.threads[t])
  }

  predicate Init(s: State) {
    && s.handles == map[] && s.bases != [] && (s.row.Some? ==> s.row.value in s.files)
    && s.recent == {Now(s)}
    && forall t :: t in s.threads ==> s.threads[t].Resting?
  }

  lemma InitHolds(s: State)
    requires Init(s)
    ensures Inv(s)
  {
  }

  // ---------- Every step keeps the invariant ----------

  /** The shared state and threads after a step, without the history. */
  function Bare(s: State, t: Tid, a: Action): State
    requires Enabled(s, t, a)
  {
    var m := Move(s, t, a);
    m.s.(threads := s.threads[t := m.pc])
  }

  predicate ReaderStep(a: Action) {
    a.BeginRead? || a.LoadGeneration? || a.Check? || a.Recapture? || a.Lookup? || a.OpenBase? || a.Install?
        || a.FallBack? || a.EndRead?
  }

  /** A read leaves its handle alone, invalidates it, or installs the base file it was after. */
  ghost predicate ReaderEffect(s: State, n: State, t: Tid) {
    && n.row == s.row && n.files == s.files && n.bases == s.bases != []
    && (|| n.handles == s.handles
        || (t in s.threads && s.threads[t].Checking? && s.threads[t].h in s.handles &&
            n.handles == s.handles[s.threads[t].h := Invalidated(s.handles[s.threads[t].h])])
        || (t in s.threads && s.threads[t].Installing? && Pending(s, t, s.threads[t].h) &&
            n.handles == s.handles[s.threads[t].h := s.handles[s.threads[t].h].(cache := BaseFile(|s.bases| - 1))]))
  }

  lemma ReaderEffects(s: State, t: Tid, a: Action)
    requires Sound(s) && Enabled(s, t, a) && ReaderStep(a)
    ensures ReaderEffect(s, Bare(s, t, a), t)
  {
  }

  /** A step never lowers a sequence number, forgets a handle or a file, or hands an old handle a backing file. */
  ghost predicate Grows(s: State, n: State) {
    && s.handles.Keys <= n.handles.Keys && s.files.Keys <= n.files.Keys && s.bases <= n.bases
    && (forall h :: h in s.handles ==> s.handles[h].stamp <= n.handles[h].stamp)
    && (forall h :: h in s.handles && n.handles[h].cache.BackingFile? ==> n.handles[h].cache == s.handles[h].cache)
    && (s.row.Some? ==> n.row.Some? || |n.bases| > |s.bases|)
  }

  lemma ReaderStepGrows(s: State, n: State, t: Tid)
    requires ReaderEffect(s, n, t)
    ensures Grows(s, n)
  {
  }

  lemma OtherStepGrows(s: State, t: Tid, a: Action)
    requires Sound(s) && Enabled(s, t, a) && !ReaderStep(a)
    ensures Grows(s, Bare(s, t, a))
    ensures a.Switch? <==> |Bare(s, t, a).bases| > |s.bases|
    ensures !a.Switch? ==> Bare(s, t, a).bases == s.bases
  {
  }

  lemma StepGrows(s: State, t: Tid, a: Action)
    requires Sound(s) && Enabled(s, t, a)
    ensures Grows(s, Bare(s, t, a))
    ensures a.Switch? <==> |Bare(s, t, a).bases| > |s.bases|
    ensures !a.Switch? ==> Bare(s, t, a).bases == s.bases
  {
    if ReaderStep(a) {
      ReaderEffects(s, t, a);
      ReaderStepGrows(s, Bare(s, t, a), t);
    } else { OtherStepGrows(s, t, a); }
  }

  lemma ReaderStepKeepsCaches(s: State, n: State, t: Tid)
    requires Sound(s) && ReaderEffect(s, n, t)
    ensures CachesSound(n)
  {
  }

  lemma OtherStepKeepsCaches(s: State, t: Tid, a: Action)
    requires Sound(s) && Enabled(s, t, a) && !ReaderStep(a)
    ensures CachesSound(Bare(s, t, a))
  {
  }

  lemma StepKeepsCaches(s: State, t: Tid, a: Action)
    requires Sound(s) && Enabled(s, t, a)
    ensures CachesSound(Bare(s, t, a))
  {
    if ReaderStep(a) {
      ReaderEffects(s, t, a);
      ReaderStepKeepsCaches(s, Bare(s, t, a), t);
    } else { OtherStepKeepsCaches(s, t, a); }
  }

  lemma ReaderStepPlacesItself(s: State, t: Tid, a: Action)
    requires Sound(s) && Enabled(s, t, a) && ReaderStep(a)
    ensures PcSound(Bare(s, t, a), Move(s, t, a).pc)
  {
  }

  lemma OtherStepPlacesItself(s: State, t: Tid, a: Action)
    requires Sound(s) && Enabled(s, t, a) && !ReaderStep(a)
    ensures PcSound(Bare(s, t, a), Move(s, t, a).pc)
  {
  }

  lemma StepPlacesItself(s: State, t: Tid, a: Action)
    requires Sound(s) && Enabled(s, t, a)
    ensures PcSound(Bare(s, t, a), Move(s, t, a).pc)
  {
    if ReaderStep(a) { ReaderStepPlacesItself(s, t, a); } else { OtherStepPlacesItself(s, t, a); }
  }

  /** Threads elsewhere stay where they may be; those in Write rely on the transition lock. */
  lemma OthersStaySound(s: State, n: State, pc: Pc)
    requires PcSound(s, pc) && Grows(s, n) && (HoldsTransition(pc) ==> n.bases == s.bases)
    ensures PcSound(n, pc)
  {
  }

  lemma StepKeepsSound(s: State, t: Tid, a: Action)
    requires Sound(s) && Enabled(s, t, a)
    ensures Sound(Bare(s, t, a))
  {
    var n := Bare(s, t, a);
    StepGrows(s, t, a);
    StepKeepsCaches(s, t, a);
    StepPlacesItself(s, t, a);
    forall u | u in n.threads ensures PcSound(n, n.threads[u]) {
      if u != t { OthersStaySound(s, n, s.threads[u]); }
    }
  }

  // ---------- What handles come to offer ----------

  /** A reader that was not pending before has just found the path without a row. */
  lemma PendingOnlyByLookup(s: State, t: Tid, a: Action, u: Tid, h: HandleId)
    requires Sound(s) && Enabled(s, t, a) && Pending(Bare(s, t, a), u, h)
    ensures Bare(s, t, a).bases == s.bases && (Pending(s, u, h) || Now(s) == BaseNow(s) == Now(Bare(s, t, a)))
  {
    StepGrows(s, t, a);
    assert u != t ==> PcSound(s, s.threads[u]);
  }

  /** Only an installing reader or an open puts a base file of the current generation into a handle. */
  lemma ReaderCachedOnlyByInstall(s: State, n: State, t: Tid, h: HandleId)
    requires ReaderEffect(s, n, t) && h in n.handles && n.handles[h].cache == BaseFile(|n.bases| - 1)
    ensures n.bases == s.bases
    ensures (h in s.handles && s.handles[h].cache == BaseFile(|s.bases| - 1)) || Pending(s, t, h)
  {
  }

  lemma OtherCachedOnlyByInstall(s: State, t: Tid, a: Action, h: HandleId)
    requires Sound(s) && Enabled(s, t, a) && !ReaderStep(a)
    requires var n := Bare(s, t, a); h in n.handles && n.handles[h].cache == BaseFile(|n.bases| - 1)
    ensures var n := Bare(s, t, a);
            && n.bases == s.bases
            && ((h in s.handles && s.handles[h].cache == BaseFile(|s.bases| - 1)) || Pending(s, t, h)
               || Now(n) == BaseNow(n) == Now(s))
  {
    assert h in s.handles ==> CacheSound(s, h);
  }

  lemma CachedOnlyByInstall(s: State, t: Tid, a: Action, h: HandleId)
    requires Sound(s) && Enabled(s, t, a)
    requires var n := Bare(s, t, a); h in n.handles && n.handles[h].cache == BaseFile(|n.bases| - 1)
    ensures var n := Bare(s, t, a);
            && n.bases == s.bases
            && ((h in s.handles && s.handles[h].cache == BaseFile(|s.bases| - 1)) || Pending(s, t, h)
               || Now(n) == BaseNow(n) == Now(s))
  {
    if ReaderStep(a) {
      ReaderEffects(s, t, a);
      ReaderCachedOnlyByInstall(s, Bare(s, t, a), t, h);
    } else { OtherCachedOnlyByInstall(s, t, a, h); }
  }

  /** What a handle offers of the base is what it offered, or what the path holds now. */
  lemma OffersOnlyNow(s: State, t: Tid, a: Action, h: HandleId)
    requires Sound(s) && Enabled(s, t, a) && OffersBase(Bare(s, t, a), h)
    ensures var n := Bare(s, t, a);
            n.bases == s.bases && (OffersBase(s, h) || (Now(n) == BaseNow(n) && Now(s) == BaseNow(s)))
  {
    var n := Bare(s, t, a);
    if n.handles[h].cache.BaseFile? && n.handles[h].cache.gen == Gen(n) {
      CachedOnlyByInstall(s, t, a, h);
    } else {
      var u :| Pending(n, u, h);
      PendingOnlyByLookup(s, t, a, u, h);
    }
  }

  /** A handle's backing file is what it was and reads as it did, or reads what the path holds now. */
  lemma ReaderBackingOnlyNow(s: State, n: State, t: Tid, h: HandleId)
    requires ReaderEffect(s, n, t) && h in n.handles && n.handles[h].cache.BackingFile?
    ensures h in s.handles && s.handles[h].cache == n.handles[h].cache
        && FileAt(n, n.handles[h].cache.id) == FileAt(s, n.handles[h].cache.id)
  {
  }

  lemma OtherBackingOnlyNow(s: State, t: Tid, a: Action, h: HandleId)
    requires Sound(s) && Enabled(s, t, a) && !ReaderStep(a)
    requires h in Bare(s, t, a).handles && Bare(s, t, a).handles[h].cache.BackingFile?
    ensures var n := Bare(s, t, a);
            var id := n.handles[h].cache.id;
            || FileAt(n, id) == Now(n)
            || (h in s.handles && s.handles[h].cache == BackingFile(id) && FileAt(n, id) == FileAt(s, id))
  {
    assert h in s.handles ==> CacheSound(s, h);
  }

  lemma BackingOnlyNow(s: State, t: Tid, a: Action, h: HandleId)
    requires Sound(s) && Enabled(s, t, a)
    requires h in Bare(s, t, a).handles && Bare(s, t, a).handles[h].cache.BackingFile?
    ensures var n := Bare(s, t, a);
            var id := n.handles[h].cache.id;
            || FileAt(n, id) == Now(n)
            || (h in s.handles && s.handles[h].cache == BackingFile(id) && FileAt(n, id) == FileAt(s, id))
  {
    if ReaderStep(a) {
      ReaderEffects(s, t, a);
      ReaderBackingOnlyNow(s, Bare(s, t, a), t, h);
    } else { OtherBackingOnlyNow(s, t, a, h); }
  }

  lemma CoveredStep(s: State, t: Tid, a: Action, h: HandleId, values: set<Seen>)
    requires Sound(s) && Enabled(s, t, a) && Covered(s, values, h)
    ensures Covered(Bare(s, t, a), values + {Now(Bare(s, t, a))}, h)
  {
    var n := Bare(s, t, a);
    if OffersBase(n, h) { OffersOnlyNow(s, t, a, h); }
    if h in n.handles && n.handles[h].cache.BackingFile? { BackingOnlyNow(s, t, a, h); }
  }

  /** A handle that was just opened offers what the path holds. */
  lemma NewHandleCovered(s: State, t: Tid, a: Action, h: HandleId)
    requires Sound(s) && Enabled(s, t, a) && h !in s.handles
    ensures Covered(Bare(s, t, a), {Now(Bare(s, t, a))}, h)
  {
    assert Covered(s, {}, h);
    CoveredStep(s, t, a, h, {});
  }

  lemma CoveredMore(s: State, values: set<Seen>, more: set<Seen>, h: HandleId)
    requires Covered(s, values, h) && values <= more
    ensures Covered(s, more, h)
  {
  }

  lemma AllCoveredStep(s: State, t: Tid, a: Action, values: set<Seen>, rest: set<HandleId>)
    requires Sound(s) && Enabled(s, t, a) && AllCovered(s, values, rest)
    ensures AllCovered(Bare(s, t, a), values + {Now(Bare(s, t, a))}, rest)
  {
    var n := Bare(s, t, a);
    forall h | h in n.handles && h !in rest ensures Covered(n, values + {Now(n)}, h) {
      if h in s.handles {
        CoveredStep(s, t, a, h, values);
      } else {
        NewHandleCovered(s, t, a, h);
        CoveredMore(n, {Now(n)}, values + {Now(n)}, h);
      }
    }
  }

  /** An invalidated handle offers nothing. */
  lemma ClosedOffersNothing(s: State, t: Tid, h: HandleId)
    requires Sound(s) && Enabled(s, t, CloseOne(h))
    ensures !OffersBase(Bare(s, t, CloseOne(h)), h) && Covered(Bare(s, t, CloseOne(h)), {}, h)
  {
    var n := Bare(s, t, CloseOne(h));
    forall u ensures !Pending(n, u, h) {
      assert u in s.threads ==> PcSound(s, s.threads[u]);
    }
  }

  // ---------- Outdated base content ----------

  /** What the path holds changes by a write's data, by a switch, or where the base has nothing. */
  lemma NowChangesByData(s: State, t: Tid, a: Action)
    requires Sound(s) && Enabled(s, t, a) && Bare(s, t, a).bases == s.bases
    requires Now(Bare(s, t, a)) != Now(s) && BaseNow(s).Some?
    ensures a.WriteData?
  {
    if ReaderStep(a) { ReaderEffects(s, t, a); }
  }

  lemma RetiringStays(s: State, t: Tid, a: Action, u: Tid, h: HandleId)
    requires Sound(s) && Enabled(s, t, a) && Retiring(s, u, h) && h in s.handles
    requires a != CloseOne(h)
    ensures exists w :: Retiring(Bare(s, t, a), w, h)
  {
    assert Retiring(Bare(s, t, a), u, h);
  }

  lemma StepKeepsOffersFresh(s: State, t: Tid, a: Action)
    requires Sound(s) && OffersFresh(s) && Enabled(s, t, a)
    ensures OffersFresh(Bare(s, t, a))
  {
    var n := Bare(s, t, a);
    forall h | OffersBase(n, h) && BaseNow(n) != Now(n) ensures exists u :: Retiring(n, u, h) {
      OffersOnlyNow(s, t, a, h);
      if a == CloseOne(h) {
        ClosedOffersNothing(s, t, h);
      } else if BaseNow(s) != Now(s) {
        var u :| Retiring(s, u, h);
        RetiringStays(s, t, a, u, h);
      } else {
        NowChangesByData(s, t, a);
        assert Retiring(n, t, h);
      }
    }
  }

  // ---------- The history ----------

  ghost predicate SameShared(s: State, n: State) {
    n == s.(recent := n.recent, since := n.since, seen := n.seen)
  }

  /** Another thread's sets grow by what the path holds after the step; so does `recent`, unless a write returns. */
  ghost predicate HistoryGrows(s: State, n: State, u: Tid) {
    && (u in s.since ==> Of(n.since, u) == Of(s.since, u) + {Now(n)})
    && (u in s.seen ==> Of(n.seen, u) == Of(s.seen, u) + {Now(n)})
    && n.recent <= s.recent + {Now(n)}
  }

  lemma NotedGrows(s: State, t: Tid, a: Action, bare: State, u: Tid)
    ensures SameShared(bare, Noted(s, t, a, bare))
    ensures u != t || !(a.BeginRead? || a.WriteData?) ==> HistoryGrows(s, Noted(s, t, a, bare), u)
  {
  }

  /** Offers and covers speak of the shared state and the program counters only. */
  lemma SameOffers(s: State, n: State, h: HandleId)
    requires SameShared(s, n)
    ensures OffersBase(s, h) <==> OffersBase(n, h)
  {
    forall t ensures Pending(n, t, h) <==> Pending(s, t, h) {}
  }

  lemma SameCover(s: State, n: State, values: set<Seen>, rest: set<HandleId>)
    requires SameShared(s, n)
    ensures AllCovered(s, values, rest) <==> AllCovered(n, values, rest)
  {
    forall h ensures OffersBase(s, h) <==> OffersBase(n, h) { SameOffers(s, n, h); }
  }

  /** A base file found in a handle's cache was there before, or has just been installed. */
  lemma HitStep(s: State, t: Tid, a: Action, h: HandleId, gen: nat, values: set<Seen>)
    requires Sound(s) && Enabled(s, t, a) && h in s.handles && gen < |s.bases|
    requires s.handles[h].cache == BaseFile(gen) ==> Serves(s, BaseFile(gen)) in values
    requires OffersBase(s, h) ==> BaseNow(s) in values
    requires h in Bare(s, t, a).handles && Bare(s, t, a).handles[h].cache == BaseFile(gen)
    ensures Serves(Bare(s, t, a), BaseFile(gen)) in values
  {
    StepGrows(s, t, a);
    if ReaderStep(a) {
      ReaderEffects(s, t, a);
      assert PcSound(s, s.threads[t]);
    }
  }

  lemma CheckingElsewhere(s: State, t: Tid, a: Action, u: Tid, values: set<Seen>)
    requires Sound(s) && Enabled(s, t, a) && u in s.threads && u != t && Reading(s.threads[u])
    requires HitCovered(s, s.threads[u], values)
    requires OffersBase(s, s.threads[u].h) ==> BaseNow(s) in values
    ensures HitCovered(Bare(s, t, a), s.threads[u], values)
  {
    var n, pc := Bare(s, t, a), s.threads[u];
    assert PcSound(s, pc);
    if pc.Checking? && pc.h in n.handles && n.handles[pc.h].cache == BaseFile(pc.gen) {
      HitStep(s, t, a, pc.h, pc.gen, values);
    }
    if pc.Opening? { StepGrows(s, t, a); }
  }

  /** What stays recorded of a reader while others move. */
  lemma ReaderStaysRecorded(s: State, n: State, u: Tid, pc: Pc)
    requires Reading(pc) && Recorded(s, u, pc) && HistoryGrows(s, n, u) && Now(s) in s.recent
    requires HitCovered(n, pc, Of(s.since, u)) && HitCovered(n, pc, Of(s.seen, u))
    requires OffersBase(n, pc.h) ==> (OffersBase(s, pc.h) && BaseNow(n) == BaseNow(s)) || BaseNow(n) == Now(n)
    ensures Recorded(n, u, pc)
  {
  }

  lemma NextOffers(s: State, t: Tid, a: Action, h: HandleId)
    requires Sound(s) && Enabled(s, t, a)
    ensures var n := Next(s, t, a);
            OffersBase(n, h) ==> (OffersBase(s, h) && BaseNow(n) == BaseNow(s)) || BaseNow(n) == Now(n)
  {
    var bare, n := Bare(s, t, a), Next(s, t, a);
    NotedGrows(s, t, a, bare, t);
    if OffersBase(n, h) {
      SameOffers(bare, n, h);
      OffersOnlyNow(s, t, a, h);
    }
  }

  lemma ReaderHitsElsewhere(s: State, t: Tid, a: Action, u: Tid)
    requires Inv(s) && Enabled(s, t, a) && u in s.threads && u != t && Reading(s.threads[u])
    ensures HitCovered(Next(s, t, a), s.threads[u], Of(s.since, u))
        && HitCovered(Next(s, t, a), s.threads[u], Of(s.seen, u))
    ensures Recorded(s, u, s.threads[u])
  {
    assert Recorded(s, u, s.threads[u]) && PcSound(s, s.threads[u]) && Covered(s, s.recent, s.threads[u].h);
    NotedGrows(s, t, a, Bare(s, t, a), u);
    CheckingElsewhere(s, t, a, u, Of(s.since, u));
    CheckingElsewhere(s, t, a, u, Of(s.seen, u));
  }

  lemma ReaderElsewhere(s: State, t: Tid, a: Action, u: Tid)
    requires Inv(s) && Enabled(s, t, a) && u in s.threads && u != t && Reading(s.threads[u])
    ensures Recorded(Next(s, t, a), u, s.threads[u])
  {
    var pc := s.threads[u];
    NotedGrows(s, t, a, Bare(s, t, a), u);
    ReaderHitsElsewhere(s, t, a, u);
    NextOffers(s, t, a, pc.h);
    ReaderStaysRecorded(s, Next(s, t, a), u, pc);
  }

  lemma ReclosingElsewhere(s: State, t: Tid, a: Action, u: Tid)
    requires Inv(s) && Enabled(s, t, a) && u in s.threads && u != t && s.threads[u].Reclosing?
    ensures Recorded(Next(s, t, a), u, s.threads[u])
  {
    var pc, n := s.threads[u], Next(s, t, a);
    assert Recorded(s, u, pc);
    NotedGrows(s, t, a, Bare(s, t, a), u);
    AllCoveredStep(s, t, a, Of(s.since, u), pc.rest);
    SameCover(Bare(s, t, a), n, Of(n.since, u), pc.rest);
  }

  lemma DoneElsewhere(s: State, t: Tid, a: Action, u: Tid)
    requires Inv(s) && Enabled(s, t, a) && u in s.threads && u != t
    requires !Reading(s.threads[u]) && !s.threads[u].Reclosing?
    ensures Recorded(Next(s, t, a), u, s.threads[u])
  {
    assert Recorded(s, u, s.threads[u]);
    NotedGrows(s, t, a, Bare(s, t, a), u);
  }

  // ---------- The stepping thread's own record ----------

  lemma BeginReadRecorded(s: State, t: Tid, h: HandleId)
    requires Inv(s) && Enabled(s, t, BeginRead(h))
    ensures Recorded(Next(s, t, BeginRead(h)), t, Started(h))
  {
    var n := Next(s, t, BeginRead(h));
    NextOffers(s, t, BeginRead(h), h);
    assert Covered(s, s.recent, h);
    if OffersBase(s, h) && BaseNow(s) != Now(s) {
      var u :| Retiring(s, u, h);
      assert !Quiet(s);
    }
  }

  /** What a reader newly relies on is what its handle offers ... */
  lemma LoadedHits(s: State, t: Tid, values: set<Seen>)
    requires Sound(s) && Enabled(s, t, LoadGeneration) && (OffersBase(s, s.threads[t].h) ==> BaseNow(s) in values)
    ensures HitCovered(Bare(s, t, LoadGeneration), Move(s, t, LoadGeneration).pc, values)
  {
    var h := s.threads[t].h;
    if h in s.handles && s.handles[h].cache == BaseFile(|s.bases| - 1) { assert CacheSound(s, h) && OffersBase(s, h); }
  }

  /** ... or what the path holds. */
  lemma OwnHits(s: State, t: Tid, a: Action, values: set<Seen>)
    requires Sound(s) && Enabled(s, t, a) && !a.LoadGeneration? && Reading(s.threads[t]) && Reading(Move(s, t, a).pc)
    requires Now(s) in values
    ensures HitCovered(Bare(s, t, a), Move(s, t, a).pc, values)
  {
  }

  lemma OwnHitsBoth(s: State, t: Tid, a: Action)
    requires Inv(s) && Enabled(s, t, a) && Reading(s.threads[t]) && Reading(Move(s, t, a).pc)
    ensures HitCovered(Next(s, t, a), Move(s, t, a).pc, Of(s.since, t))
        && HitCovered(Next(s, t, a), Move(s, t, a).pc, Of(s.seen, t))
    ensures Recorded(s, t, s.threads[t])
  {
    var pc := s.threads[t];
    assert Recorded(s, t, pc) && PcSound(s, pc) && Covered(s, s.recent, pc.h);
    NotedGrows(s, t, a, Bare(s, t, a), t);
    if a.LoadGeneration? {
      LoadedHits(s, t, Of(s.since, t));
      LoadedHits(s, t, Of(s.seen, t));
    } else {
      OwnHits(s, t, a, Of(s.since, t));
      OwnHits(s, t, a, Of(s.seen, t));
    }
  }

  lemma ReaderMovesOn(s: State, t: Tid, a: Action)
    requires Inv(s) && Enabled(s, t, a) && Reading(s.threads[t]) && Reading(Move(s, t, a).pc)
    ensures Recorded(Next(s, t, a), t, Move(s, t, a).pc)
  {
    var pc := s.threads[t];
    NotedGrows(s, t, a, Bare(s, t, a), t);
    OwnHitsBoth(s, t, a);
    NextOffers(s, t, a, pc.h);
    ReaderRecordedAgain(s, Next(s, t, a), t, pc, Move(s, t, a).pc);
  }

  lemma ReaderRecordedAgain(s: State, n: State, t: Tid, pc: Pc, to: Pc)
    requires Reading(pc) && Reading(to) && to.h == pc.h && Recorded(s, t, pc) && HistoryGrows(s, n, t)
        && Now(s) in s.recent
    requires HitCovered(n, to, Of(s.since, t)) && HitCovered(n, to, Of(s.seen, t))
    requires OffersBase(n, to.h) ==> (OffersBase(s, to.h) && BaseNow(n) == BaseNow(s)) || BaseNow(n) == Now(n)
    ensures Recorded(n, t, to)
  {
  }

  /** A reader returns what its handle offers, what it has found, or what the path holds. */
  lemma ReadReturns(s: State, t: Tid, a: Action)
    requires Inv(s) && Enabled(s, t, a) && Reading(s.threads[t]) && Move(s, t, a).pc.Returned?
    ensures Recorded(Next(s, t, a), t, Move(s, t, a).pc)
  {
    var pc := s.threads[t];
    assert Recorded(s, t, pc) && PcSound(s, pc) && Covered(s, s.recent, pc.h);
    NotedGrows(s, t, a, Bare(s, t, a), t);
    if a.Install? { assert Pending(s, t, pc.h); }
  }

  lemma CloseRecorded(s: State, t: Tid, h: HandleId)
    requires Inv(s) && Enabled(s, t, CloseOne(h)) && s.threads[t].Reclosing?
    ensures Recorded(Next(s, t, CloseOne(h)), t, Move(s, t, CloseOne(h)).pc)
  {
    var pc, bare, n := s.threads[t], Bare(s, t, CloseOne(h)), Next(s, t, CloseOne(h));
    assert Recorded(s, t, pc);
    NotedGrows(s, t, CloseOne(h), bare, t);
    var values := Of(s.since, t) + {Now(bare)};
    AllCoveredStep(s, t, CloseOne(h), Of(s.since, t), pc.rest);
    ClosedOffersNothing(s, t, h);
    CoveredMore(bare, {}, values, h);
    assert AllCovered(bare, values, pc.rest - {h});
    SameCover(bare, n, values, pc.rest - {h});
  }

  lemma WriterMovesOn(s: State, t: Tid, a: Action)
    requires Inv(s) && Enabled(s, t, a) && !Reading(s.threads[t]) && !a.BeginRead?
    ensures Recorded(Next(s, t, a), t, Move(s, t, a).pc)
  {
    if a.CloseOne? && s.threads[t].Reclosing? {
      CloseRecorded(s, t, a.h);
    } else {
      assert Recorded(s, t, s.threads[t]);
      NotedGrows(s, t, a, Bare(s, t, a), t);
    }
  }

  lemma RecordedElsewhere(s: State, t: Tid, a: Action, u: Tid)
    requires Inv(s) && Enabled(s, t, a) && u in s.threads && u != t
    ensures Recorded(Next(s, t, a), u, s.threads[u])
  {
    if Reading(s.threads[u]) { ReaderElsewhere(s, t, a, u); }
    else if s.threads[u].Reclosing? { ReclosingElsewhere(s, t, a, u); }
    else { DoneElsewhere(s, t, a, u); }
  }

  lemma OwnRecord(s: State, t: Tid, a: Action)
    requires Inv(s) && Enabled(s, t, a)
    ensures Recorded(Next(s, t, a), t, Move(s, t, a).pc)
  {
    if a.BeginRead? { BeginReadRecorded(s, t, a.h); }
    else if !Reading(s.threads[t]) { WriterMovesOn(s, t, a); }
    else {
      ReadersReadOn(s, t, a);
      if Reading(Move(s, t, a).pc) { ReaderMovesOn(s, t, a); } else { ReadReturns(s, t, a); }
    }
  }

  lemma ReadersReadOn(s: State, t: Tid, a: Action)
    requires Enabled(s, t, a) && Reading(s.threads[t])
    ensures Reading(Move(s, t, a).pc) || Move(s, t, a).pc.Returned?
  {
  }

  lemma StepKeepsRecent(s: State, t: Tid, a: Action)
    requires Inv(s) && Enabled(s, t, a)
    ensures AllCovered(Next(s, t, a), Next(s, t, a).recent, {})
  {
    var bare, n := Bare(s, t, a), Next(s, t, a);
    NotedGrows(s, t, a, bare, t);
    AllCoveredStep(s, t, a, s.recent, {});
    var values := s.recent + {Now(bare)};
    if a.WriteReturns? {
      assert Recorded(s, t, s.threads[t]);
      AllCoveredStep(s, t, a, Of(s.since, t), {});
      values := n.recent;
    }
    assert AllCovered(bare, values, {});
    SameCover(bare, n, values, {});
  }

  lemma InvStep(s: State, t: Tid, a: Action)
    requires Inv(s) && Enabled(s, t, a)
    ensures Inv(Next(s, t, a))
  {
    var bare, n := Bare(s, t, a), Next(s, t, a);
    NotedGrows(s, t, a, bare, t);
    StepKeepsSound(s, t, a);
    StepKeepsOffersFresh(s, t, a);
    StepKeepsRecent(s, t, a);
    OwnRecord(s, t, a);
    forall u | u in n.threads && u != t ensures Recorded(n, u, n.threads[u]) { RecordedElsewhere(s, t, a, u); }
    SharedInv(bare, n);
  }

  lemma SharedInv(s: State, n: State)
    requires SameShared(s, n) && Sound(s) && OffersFresh(s)
    ensures Sound(n) && OffersFresh(n)
  {
    forall u | u in n.threads ensures PcSound(n, n.threads[u]) { assert PcSound(s, s.threads[u]); }
    forall h | h in n.handles ensures CacheSound(n, h) { assert CacheSound(s, h); }
    forall h | OffersBase(n, h) && BaseNow(n) != Now(n) ensures exists u :: Retiring(n, u, h) {
      SameOffers(s, n, h);
      var u :| Retiring(s, u, h);
      assert Retiring(n, u, h);
    }
  }

  // ---------- Runs ----------

  datatype Event = Event(t: Tid, a: Action)

  ghost predicate Runs(s: State, events: seq<Event>)
    decreases |events|
  {
    events == [] ||
    (Enabled(s, events[0].t, events[0].a) && Runs(Next(s, events[0].t, events[0].a), events[1..]))
  }

  ghost function After(s: State, events: seq<Event>): State
    requires Runs(s, events)
    decreases |events|
  {
    if events == [] then s else After(Next(s, events[0].t, events[0].a), events[1..])
  }

  lemma {:induction false} InvOverRuns(s: State, events: seq<Event>)
    requires Inv(s) && Runs(s, events)
    ensures Inv(After(s, events))
    decreases |events|
  {
    if events != [] {
      InvStep(s, events[0].t, events[0].a);
      InvOverRuns(Next(s, events[0].t, events[0].a), events[1..]);
    }
  }

  /**
   * In every interleaving a read returns something the path has held since the data of the last
   * write that had returned before the read began.
   */
  lemma ReadsSinceLastWrite(s: State, events: seq<Event>, t: Tid)
    requires Init(s) && Runs(s, events)
    requires t in After(s, events).threads && After(s, events).threads[t].Returned?
    ensures After(s, events).threads[t].value in Of(After(s, events).since, t)
  {
    InitHolds(s);
    InvOverRuns(s, events);
    assert Recorded(After(s, events), t, After(s, events).threads[t]);
  }

  /** While no write is between its data and its return, no handle offers outdated base bytes. */
  lemma QuietHandlesOfferNow(s: State, events: seq<Event>, h: HandleId)
    requires Init(s) && Runs(s, events) && Quiet(After(s, events)) && OffersBase(After(s, events), h)
    ensures BaseNow(After(s, events)) == Now(After(s, events))
  {
    InitHolds(s);
    InvOverRuns(s, events);
  }

  // ---------- Reads after a write ----------

  /** A run during which the path holds `c` throughout. */
  ghost predicate Calm(s: State, events: seq<Event>, c: Seen)
    requires Runs(s, events)
    decreases |events|
  {
    Now(s) == c && (events == [] || Calm(Next(s, events[0].t, events[0].a), events[1..], c))
  }

  /** A switch changes what the path holds exactly if no row covers the base and the base differs. */
  lemma SwitchKeepsNowIff(s: State, t: Tid, newBase: Seen, drop: bool)
    requires Sound(s) && Enabled(s, t, Switch(newBase, drop))
    ensures Now(Next(s, t, Switch(newBase, drop))) == Now(s) <==> s.row.Some? || newBase == Now(s)
  {
  }

  ghost predicate Steady(s: State, c: Seen, t: Tid) {
    && Now(s) == c && s.recent <= {c} && t in s.threads
    && (Reading(s.threads[t]) || s.threads[t].Returned? ==> Of(s.since, t) <= {c})
  }

  lemma SteadyStep(s: State, u: Tid, a: Action, c: Seen, t: Tid)
    requires Steady(s, c, t) && Enabled(s, u, a) && Now(Next(s, u, a)) == c
    ensures Steady(Next(s, u, a), c, t)
  {
    NotedGrows(s, u, a, Bare(s, u, a), t);
    if u == t { OnlyReadersRead(s, t, a); }
  }

  lemma OnlyReadersRead(s: State, t: Tid, a: Action)
    requires Enabled(s, t, a)
    ensures Reading(Move(s, t, a).pc) || Move(s, t, a).pc.Returned? ==>
              a.BeginRead? || ((Reading(s.threads[t]) || s.threads[t].Returned?) && !a.WriteData?)
  {
  }

  lemma {:induction false} SteadyOverRun(s: State, events: seq<Event>, c: Seen, t: Tid)
    requires Runs(s, events) && Calm(s, events, c) && Steady(s, c, t)
    ensures Steady(After(s, events), c, t)
    decreases |events|
  {
    if events != [] {
      var e := events[0];
      SteadyStep(s, e.t, e.a, c, t);
      SteadyOverRun(Next(s, e.t, e.a), events[1..], c, t);
    }
  }

  /** The write is past its data and has not returned; it has seen nothing but `c` since. */
  ghost predicate Finishing(s: State, w: Tid, c: Seen) {
    w in s.threads && (s.threads[w].Writing? || s.threads[w].Reclosing?) && Of(s.since, w) <= {c}
  }

  lemma {:induction false} FinishingOverRun(s: State, events: seq<Event>, c: Seen, w: Tid)
    requires Runs(s, events) && Calm(s, events, c) && Finishing(s, w, c)
    requires forall i :: 0 <= i < |events| ==> events[i] != Event(w, WriteReturns)
    ensures Finishing(After(s, events), w, c)
    decreases |events|
  {
    if events != [] {
      var e := events[0];
      NotedGrows(s, e.t, e.a, Bare(s, e.t, e.a), w);
      FinishingOverRun(Next(s, e.t, e.a), events[1..], c, w);
    }
  }

  /** A write's data step makes the path hold what was written; that is all the write has seen since. */
  lemma WriteShows(s: State, w: Tid, off: nat, data: Bytes)
    requires Sound(s) && Enabled(s, w, WriteData(off, data))
    ensures var c := Some(Spliced(Now(s).value, off, data));
            Now(Next(s, w, WriteData(off, data))) == c && Finishing(Next(s, w, WriteData(off, data)), w, c)
  {
    assert PcSound(s, s.threads[w]);
  }

  /** After the write returns there is nothing older to read. */
  lemma ReturnSettles(s: State, w: Tid, c: Seen, t: Tid)
    requires Enabled(s, w, WriteReturns) && Finishing(s, w, c) && Now(Next(s, w, WriteReturns)) == c
    requires t in s.threads && Next(s, w, WriteReturns).threads[t].Resting?
    ensures Steady(Next(s, w, WriteReturns), c, t)
  {
  }

  lemma SteadyReads(s: State, events: seq<Event>, c: Seen, t: Tid)
    requires Inv(s) && Runs(s, events) && Calm(s, events, c) && Steady(s, c, t)
    requires t in After(s, events).threads && After(s, events).threads[t].Returned?
    ensures After(s, events).threads[t].value == c
  {
    InvOverRuns(s, events);
    SteadyOverRun(s, events, c, t);
    assert Recorded(After(s, events), t, After(s, events).threads[t]);
  }

  /**
   * Open handles read their writes.  A write puts its data in, returns after any steps of others,
   * and then any read that starts later returns what was written, for as long as the path holds
   * it: through switches that keep the row, the switch that drops it because the base has the
   * same content, reads, opens and other writes up to their data.
   */
  lemma HandlesReadTheirWrites(s: State, w: Tid, off: nat, data: Bytes, c: Seen, during: seq<Event>, later: seq<Event>,
                               written: State, ready: State, returned: State, t: Tid)
    requires Inv(s) && Enabled(s, w, WriteData(off, data)) && c == Some(Spliced(Now(s).value, off, data))
    requires written == Next(s, w, WriteData(off, data))
    requires Runs(written, during) && Calm(written, during, c) && ready == After(written, during)
    requires forall i :: 0 <= i < |during| ==> during[i] != Event(w, WriteReturns)
    requires Enabled(ready, w, WriteReturns) && returned == Next(ready, w, WriteReturns)
    requires Runs(returned, later) && Calm(returned, later, c)
    requires t in returned.threads && returned.threads[t].Resting?
    requires t in After(returned, later).threads && After(returned, later).threads[t].Returned?
    ensures After(returned, later).threads[t].value == c
  {
    InvStep(s, w, WriteData(off, data));
    InvOverRuns(written, during);
    InvStep(ready, w, WriteReturns);
    WriteShows(s, w, off, data);
    FinishingOverRun(written, during, c, w);
    ReturnSettles(ready, w, c, t);
    SteadyReads(returned, later, c, t);
  }

  // ---------- When a read returns what the path does not hold ----------

  /** The thread is in a read, or has the result of one. */
  predicate InRead(s: State, t: Tid) {
    t in s.threads && (Reading(s.threads[t]) || s.threads[t].Returned?)
  }

  /** What the reader may serve, or has served, is something the path has held during the read. */
  ghost predicate Honest(s: State, t: Tid) {
    && InRead(s, t)
    && (Reading(s.threads[t]) ==> ServesSeen(s, s.threads[t].h, Of(s.seen, t)))
    && (s.threads[t].Returned? ==> s.threads[t].value in Of(s.seen, t))
  }

  ghost predicate ServesSeen(s: State, h: HandleId, values: set<Seen>) {
    h in s.handles && (s.handles[h].cache.BackingFile? ==> FileAt(s, s.handles[h].cache.id) in values)
  }

  /** A read that has begun at `s` has its result at the end of the run. */
  ghost predicate Reads(s: State, events: seq<Event>, t: Tid) {
    && Runs(s, events) && Event(t, EndRead) !in events
    && t in After(s, events).threads && After(s, events).threads[t].Returned?
  }

  ghost function Result(s: State, events: seq<Event>, t: Tid): Seen
    requires Reads(s, events, t)
  {
    After(s, events).threads[t].value
  }

  /** Unless its handle is stale, a read begins that way ... */
  lemma BeginsHonest(s: State, t: Tid, h: HandleId)
    requires Sound(s) && Enabled(s, t, BeginRead(h)) && !Stale(s, h)
    ensures Honest(Next(s, t, BeginRead(h)), t)
  {
  }

  lemma ServesSeenStep(s: State, u: Tid, a: Action, h: HandleId, values: set<Seen>)
    requires Sound(s) && Enabled(s, u, a) && ServesSeen(s, h, values)
    ensures ServesSeen(Bare(s, u, a), h, values + {Now(Bare(s, u, a))})
  {
    StepGrows(s, u, a);
    if Bare(s, u, a).handles[h].cache.BackingFile? { BackingOnlyNow(s, u, a, h); }
  }

  /** ... and stays so, whatever the others do ... */
  lemma HonestElsewhere(s: State, u: Tid, a: Action, t: Tid)
    requires Inv(s) && Enabled(s, u, a) && u != t && Honest(s, t)
    ensures Honest(Next(s, u, a), t)
  {
    assert Recorded(s, t, s.threads[t]);
    NotedGrows(s, u, a, Bare(s, u, a), t);
    if Reading(s.threads[t]) { ServesSeenStep(s, u, a, s.threads[t].h, Of(s.seen, t)); }
  }

  lemma SameHandle(s: State, t: Tid, a: Action)
    requires Sound(s) && Enabled(s, t, a) && Reading(s.threads[t]) && Reading(Move(s, t, a).pc)
    ensures Move(s, t, a).pc.h == s.threads[t].h && s.threads[t].h in s.handles
  {
    assert PcSound(s, s.threads[t]);
  }

  /** ... on its way to the result ... */
  lemma HonestReadsOn(s: State, t: Tid, a: Action)
    requires Inv(s) && Enabled(s, t, a) && Honest(s, t) && Reading(s.threads[t]) && Reading(Move(s, t, a).pc)
    ensures Honest(Next(s, t, a), t)
  {
    SameHandle(s, t, a);
    assert Recorded(s, t, s.threads[t]) && !a.BeginRead? && !a.WriteData?;
    NotedGrows(s, t, a, Bare(s, t, a), t);
    ServesSeenStep(s, t, a, s.threads[t].h, Of(s.seen, t));
  }

  /** ... and in it. */
  lemma HonestReturns(s: State, t: Tid, a: Action)
    requires Inv(s) && Enabled(s, t, a) && Honest(s, t) && Reading(s.threads[t]) && Move(s, t, a).pc.Returned?
    ensures Honest(Next(s, t, a), t)
  {
    var pc := s.threads[t];
    assert Recorded(s, t, pc) && PcSound(s, pc);
    NotedGrows(s, t, a, Bare(s, t, a), t);
    if a.Install? { assert Pending(s, t, pc.h); }
  }

  lemma HonestStep(s: State, u: Tid, a: Action, t: Tid)
    requires Inv(s) && Enabled(s, u, a) && Honest(s, t) && Event(u, a) != Event(t, EndRead)
    ensures Honest(Next(s, u, a), t)
  {
    if u != t {
      HonestElsewhere(s, u, a, t);
    } else {
      assert Reading(s.threads[t]);
      ReadersReadOn(s, t, a);
      if Reading(Move(s, t, a).pc) { HonestReadsOn(s, t, a); } else { HonestReturns(s, t, a); }
    }
  }

  lemma {:induction false} HonestOverRun(s: State, events: seq<Event>, t: Tid)
    requires Inv(s) && Runs(s, events) && Honest(s, t) && Event(t, EndRead) !in events
    ensures Honest(After(s, events), t)
    decreases |events|
  {
    if events != [] {
      var e := events[0];
      InvStep(s, e.t, e.a);
      HonestStep(s, e.t, e.a, t);
      HonestOverRun(Next(s, e.t, e.a), events[1..], t);
    }
  }

  /**
   * A read on a handle that is not stale when the read begins returns something the path has held
   * during the read, or, where it began while a write was returning, since the last write before.
   */
  lemma ReadsWhatWasThere(s: State, t: Tid, h: HandleId, begun: State, events: seq<Event>)
    requires Inv(s) && Enabled(s, t, BeginRead(h)) && begun == Next(s, t, BeginRead(h)) && Reads(begun, events, t)
    requires !Stale(s, h)
    ensures Result(begun, events, t) in Of(After(begun, events).seen, t)
  {
    InvStep(s, t, BeginRead(h));
    BeginsHonest(s, t, h);
    HonestOverRun(begun, events, t);
  }

  /** The write has closed the handle, and has not yet returned. */
  predicate HasClosed(pc: Pc, h: HandleId) {
    pc.Creating? || pc.Promoted? || pc.Writing? || pc.Reclosing? || (pc.Closing? && h !in pc.rest)
  }

  /** Until then the handle gets no backing file back. */
  ghost predicate ClosedStay(s: State) {
    forall t, h :: t in s.threads && h in s.handles && HasClosed(s.threads[t], h) ==> !s.handles[h].cache.BackingFile?
  }

  lemma ClosedStayStep(s: State, u: Tid, a: Action)
    requires Sound(s) && ClosedStay(s) && Enabled(s, u, a)
    ensures ClosedStay(Next(s, u, a))
  {
    var bare, n := Bare(s, u, a), Next(s, u, a);
    StepGrows(s, u, a);
    NotedGrows(s, u, a, bare, u);
    forall t, h | t in n.threads && h in n.handles && HasClosed(n.threads[t], h)
      ensures !n.handles[h].cache.BackingFile?
    {
      if t != u {
        assert HasClosed(s.threads[t], h);
      } else if !HasClosed(s.threads[t], h) {
        assert a == CloseOne(h);
      }
    }
  }

  lemma {:induction false} ClosedStayOverRun(s: State, events: seq<Event>)
    requires Inv(s) && ClosedStay(s) && Runs(s, events)
    ensures ClosedStay(After(s, events))
    decreases |events|
  {
    if events != [] {
      InvStep(s, events[0].t, events[0].a);
      ClosedStayStep(s, events[0].t, events[0].a);
      ClosedStayOverRun(Next(s, events[0].t, events[0].a), events[1..]);
    }
  }

  /** While a write is at its data, no handle is stale: what is read then was there while it was read. */
  lemma WritersLeaveNoneStale(s: State, events: seq<Event>, w: Tid, h: HandleId)
    requires Init(s) && Runs(s, events) && w in After(s, events).threads && h in After(s, events).handles
    requires HasClosed(After(s, events).threads[w], h)
    ensures !Stale(After(s, events), h)
  {
    InitHolds(s);
    ClosedStayOverRun(s, events);
  }

  /** A reader that has yet to check its handle, which keeps the file of a dropped row. */
  ghost predicate KeepsFile(s: State, t: Tid, h: HandleId, id: FileId, content: Seen) {
    && t in s.threads && h in s.handles && s.handles[h].cache == BackingFile(id)
    && Dangling(s, s.handles[h].cache) && FileAt(s, id) == content
    && (s.threads[t] == Started(h) || (s.threads[t].Checking? && s.threads[t].h == h))
  }

  /** The file of a dropped row never changes, and only closing takes it from a handle. */
  lemma ReaderLeavesDangling(s: State, t: Tid, a: Action, h: HandleId)
    requires Sound(s) && Enabled(s, t, a) && ReaderStep(a) && h in s.handles && Dangling(s, s.handles[h].cache)
    ensures var n := Bare(s, t, a);
            && h in n.handles && n.handles[h].cache == s.handles[h].cache && Dangling(n, n.handles[h].cache)
            && FileAt(n, n.handles[h].cache.id) == FileAt(s, n.handles[h].cache.id)
  {
    assert PcSound(s, s.threads[t]);
  }

  lemma OtherLeavesDangling(s: State, t: Tid, a: Action, h: HandleId)
    requires Sound(s) && Enabled(s, t, a) && !ReaderStep(a) && a != CloseOne(h)
    requires h in s.handles && Dangling(s, s.handles[h].cache)
    ensures var n := Bare(s, t, a);
            && h in n.handles && n.handles[h].cache == s.handles[h].cache && Dangling(n, n.handles[h].cache)
            && FileAt(n, n.handles[h].cache.id) == FileAt(s, n.handles[h].cache.id)
  {
    assert CacheSound(s, h);
  }

  lemma KeepsFileStep(s: State, u: Tid, a: Action, t: Tid, h: HandleId, id: FileId, content: Seen)
    requires Sound(s) && Enabled(s, u, a) && KeepsFile(s, t, h, id, content) && a != CloseOne(h)
    ensures if Event(u, a) == Event(t, Check) then Next(s, u, a).threads[t] == Returned(content)
            else KeepsFile(Next(s, u, a), t, h, id, content)
  {
    NotedGrows(s, u, a, Bare(s, u, a), t);
    if ReaderStep(a) { ReaderLeavesDangling(s, u, a, h); } else { OtherLeavesDangling(s, u, a, h); }
  }

  lemma {:induction false} ReturnedStays(s: State, events: seq<Event>, t: Tid)
    requires Runs(s, events) && Event(t, EndRead) !in events && t in s.threads && s.threads[t].Returned?
    ensures t in After(s, events).threads && After(s, events).threads[t] == s.threads[t]
    decreases |events|
  {
    if events != [] { ReturnedStays(Next(s, events[0].t, events[0].a), events[1..], t); }
  }

  /** A handle that is closed before it is checked has nothing stale to serve. */
  lemma ClosingMakesHonest(s: State, u: Tid, t: Tid, h: HandleId)
    requires Inv(s) && Enabled(s, u, CloseOne(h)) && InRead(s, t) && Reading(s.threads[t]) && s.threads[t].h == h
    ensures Honest(Next(s, u, CloseOne(h)), t)
  {
  }

  /** A write closes the handle before the reader checks it. */
  ghost predicate ClosedFirst(events: seq<Event>, t: Tid, h: HandleId)
    decreases |events|
  {
    events != [] &&
    (events[0].a == CloseOne(h) || (events[0] != Event(t, Check) && ClosedFirst(events[1..], t, h)))
  }

  lemma {:induction false} KeepsFileOverRun(s: State, events: seq<Event>, t: Tid, h: HandleId, id: FileId,
      content: Seen)
    requires Inv(s) && Reads(s, events, t) && KeepsFile(s, t, h, id, content)
    ensures if ClosedFirst(events, t, h) then Honest(After(s, events), t) else Result(s, events, t) == content
    decreases |events|
  {
    assert events != [];
    var e := events[0];
    var n := Next(s, e.t, e.a);
    InvStep(s, e.t, e.a);
    if e.a == CloseOne(h) {
      ClosingMakesHonest(s, e.t, t, h);
      HonestOverRun(n, events[1..], t);
    } else {
      KeepsFileStep(s, e.t, e.a, t, h, id, content);
      if e == Event(t, Check) {
        ReturnedStays(n, events[1..], t);
      } else {
        KeepsFileOverRun(n, events[1..], t, h, id, content);
      }
    }
  }

  /** Unless a write closes it first, such a handle serves the dropped row's file, whatever the path holds. */
  lemma DanglingServesItsFile(s: State, t: Tid, h: HandleId, begun: State, events: seq<Event>)
    requires Inv(s) && Enabled(s, t, BeginRead(h)) && begun == Next(s, t, BeginRead(h)) && Reads(begun, events, t)
    requires Dangling(s, s.handles[h].cache)
    ensures if ClosedFirst(events, t, h) then Result(begun, events, t) in Of(After(begun, events).seen, t)
            else Result(begun, events, t) == FileAt(s, s.handles[h].cache.id)
  {
    InvStep(s, t, BeginRead(h));
    KeepsFileOverRun(begun, events, t, h, s.handles[h].cache.id, FileAt(s, s.handles[h].cache.id));
  }

  lemma {:induction false} SeenOverRun(s: State, events: seq<Event>, c: Seen, t: Tid)
    requires Runs(s, events) && Calm(s, events, c) && InRead(s, t) && Event(t, EndRead) !in events
    requires t in s.seen && Of(s.seen, t) <= {c}
    ensures Of(After(s, events).seen, t) <= {c}
    decreases |events|
  {
    if events != [] {
      var e := events[0];
      NotedGrows(s, e.t, e.a, Bare(s, e.t, e.a), t);
      SeenOverRun(Next(s, e.t, e.a), events[1..], c, t);
    }
  }

  /**
   * The exact condition, which can be looked up when the read begins.  Between writes, while the
   * path goes on holding what it holds, a read returns that if and only if its handle is not
   * stale, or the next write closes the handle before the reader gets to check it.
   */
  lemma ReadsNowIffNotStale(s: State, t: Tid, h: HandleId, begun: State, events: seq<Event>)
    requires Inv(s) && Enabled(s, t, BeginRead(h)) && begun == Next(s, t, BeginRead(h)) && Reads(begun, events, t)
    requires Quiet(s) && Calm(begun, events, Now(s))
    ensures Result(begun, events, t) == Now(s) <==> !Stale(s, h) || ClosedFirst(events, t, h)
  {
    SeenOverRun(begun, events, Now(s), t);
    if Stale(s, h) {
      DanglingServesItsFile(s, t, h, begun, events);
    } else {
      ReadsWhatWasThere(s, t, h, begun, events);
    }
  }

  // ---------- What a switch after the drop can leave behind ----------

  lemma RunsOn(s: State, e: Event, rest: seq<Event>)
    requires Enabled(s, e.t, e.a) && Runs(Next(s, e.t, e.a), rest)
    ensures Runs(s, [e] + rest) && After(s, [e] + rest) == After(Next(s, e.t, e.a), rest)
  {
    assert ([e] + rest)[1..] == rest;
  }

  lemma RunsThree(s: State, a: Event, b: Event, c: Event)
    requires Enabled(s, a.t, a.a) && Enabled(Next(s, a.t, a.a), b.t, b.a)
    requires Enabled(Next(Next(s, a.t, a.a), b.t, b.a), c.t, c.a)
    ensures Runs(s, [a] + ([b] + ([c] + [])))
    ensures After(s, [a] + ([b] + ([c] + []))) == Next(Next(Next(s, a.t, a.a), b.t, b.a), c.t, c.a)
  {
    var s1 := Next(s, a.t, a.a);
    var s2 := Next(s1, b.t, b.a);
    RunsOn(s2, c, []);
    RunsOn(s1, b, [c] + []);
    RunsOn(s, a, [b] + ([c] + []));
  }

  /** A handle is opened on the row, the row is committed and dropped, and a later generation differs. */
  function OpenedThenDropped(c: Bytes, d: Seen): seq<Event> {
    [Event(0, Open(7))] + ([Event(0, Switch(Some(c), true))] + ([Event(0, Switch(d, false))] + []))
  }

  function OneRead(): seq<Event> {
    [Event(0, BeginRead(7))] + ([Event(0, LoadGeneration)] + ([Event(0, Check)] + []))
  }

  /** Where the path's row names file 0 with content `c`, and nothing goes on. */
  predicate OnlyRow(s: State, c: Bytes) {
    Init(s) && s.row == Some(0) && s.files == map[0 := c] && 0 in s.threads &&
    forall t :: t in s.threads ==> s.threads[t].Resting?
  }

  lemma DroppedBackingStays(s: State, c: Bytes, d: Seen)
    requires OnlyRow(s, c)
    ensures Runs(s, OpenedThenDropped(c, d))
    ensures var n := After(s, OpenedThenDropped(c, d));
            && n.handles == map[7 := Handle(BackingFile(0), 0)] && n.row == None && n.files == s.files
            && n.bases == s.bases + [Some(c)] + [d] && n.threads == s.threads
  {
    var s1 := Next(s, 0, Open(7));
    assert s1.threads == s.threads;
    var s2 := Next(s1, 0, Switch(Some(c), true));
    assert s2.threads == s.threads;
    RunsThree(s, Event(0, Open(7)), Event(0, Switch(Some(c), true)), Event(0, Switch(d, false)));
    assert Next(s2, 0, Switch(d, false)).threads == s.threads;
  }

  lemma ReadOfBacking(s: State)
    requires 7 in s.handles && s.handles[7].cache == BackingFile(0) && 0 in s.threads && s.threads[0].Resting?
    ensures Runs(s, OneRead()) && Now(After(s, OneRead())) == Now(s)
    ensures After(s, OneRead()).threads[0] == Returned(FileAt(s, 0))
  {
    var s1 := Next(s, 0, BeginRead(7));
    assert s1.threads[0] == Started(7) && s1.handles == s.handles;
    var s2 := Next(s1, 0, LoadGeneration);
    assert s2.threads[0].Checking? && s2.handles == s.handles;
    RunsThree(s, Event(0, BeginRead(7)), Event(0, LoadGeneration), Event(0, Check));
  }

  /** A read on that handle, begun and ended after the switch, returns what the path no longer holds. */
  lemma DroppedBackingIsStale(s: State, c: Bytes, d: Seen)
    requires OnlyRow(s, c) && d != Some(c)
    ensures Runs(s, OpenedThenDropped(c, d))
    ensures var later := After(s, OpenedThenDropped(c, d));
            && Now(later) == d && 7 in later.handles && Stale(later, 7) && Runs(later, OneRead())
            && Now(After(later, OneRead())) == d && After(later, OneRead()).threads[0] == Returned(Some(c))
  {
    DroppedBackingStays(s, c, d);
    ReadOfBacking(After(s, OpenedThenDropped(c, d)));
  }

  // ---------- What a handle keeps ----------

  /** A read that nobody gets in the way of, on a handle without file. */
  function WholeRead(t: Tid, h: HandleId): seq<Event> {
    [Event(t, BeginRead(h))] + ([Event(t, LoadGeneration)] + ([Event(t, Check)] + Fetch(t)))
  }

  function Fetch(t: Tid): seq<Event> {
    [Event(t, Lookup)] + ([Event(t, OpenBase)] + ([Event(t, Install)] + []))
  }

  lemma FetchInstalls(s: State, t: Tid, h: HandleId)
    requires t in s.threads && h in s.handles && s.threads[t] == LookingUp(h, s.handles[h].stamp)
    requires s.bases != [] && s.row.None? && BaseNow(s).Some?
    ensures Runs(s, Fetch(t))
    ensures var n := After(s, Fetch(t));
            && n.handles == s.handles[h := s.handles[h].(cache := BaseFile(Gen(s)))] && n.bases == s.bases
            && t in n.threads && n.threads[t] == Returned(BaseNow(s))
  {
    var s1 := Next(s, t, Lookup);
    assert s1.threads[t] == Opening(h, s.handles[h].stamp) && s1.handles == s.handles && s1.bases == s.bases;
    var s2 := Next(s1, t, OpenBase);
    assert s2.threads[t] == Installing(h, s.handles[h].stamp, Gen(s)) && s2.handles == s.handles;
    RunsThree(s, Event(t, Lookup), Event(t, OpenBase), Event(t, Install));
  }

  lemma CheckMisses(s: State, t: Tid, h: HandleId)
    requires t in s.threads && s.threads[t].Resting? && h in s.handles && s.handles[h].cache.NoFile? && s.bases != []
    ensures Enabled(s, t, BeginRead(h)) && Enabled(Next(s, t, BeginRead(h)), t, LoadGeneration)
    ensures Enabled(Next(Next(s, t, BeginRead(h)), t, LoadGeneration), t, Check)
    ensures var n := Next(Next(Next(s, t, BeginRead(h)), t, LoadGeneration), t, Check);
            && n.handles == s.handles && n.bases == s.bases && n.row == s.row
            && n.threads[t] == LookingUp(h, s.handles[h].stamp)
  {
    var s1 := Next(s, t, BeginRead(h));
    var s2 := Next(s1, t, LoadGeneration);
    assert s1.threads[t] == Started(h) && s2.threads[t] == Checking(h, |s.bases| - 1) && s2.handles == s.handles;
  }

  /** It opens the base file, returns its bytes, and leaves the file in the handle ... */
  lemma UndisturbedReadCaches(s: State, t: Tid, h: HandleId)
    requires t in s.threads && s.threads[t].Resting? && h in s.handles && s.handles[h].cache.NoFile?
    requires s.bases != [] && s.row.None? && BaseNow(s).Some?
    ensures Runs(s, WholeRead(t, h))
    ensures var n := After(s, WholeRead(t, h));
            && h in n.handles && n.handles[h] == s.handles[h].(cache := BaseFile(Gen(s))) && n.bases == s.bases
            && t in n.threads && n.threads[t] == Returned(BaseNow(s))
  {
    CheckMisses(s, t, h);
    var s1 := Next(s, t, BeginRead(h));
    var s2 := Next(s1, t, LoadGeneration);
    var s3 := Next(s2, t, Check);
    FetchInstalls(s3, t, h);
    RunsOn(s2, Event(t, Check), Fetch(t));
    RunsOn(s1, Event(t, LoadGeneration), [Event(t, Check)] + Fetch(t));
    RunsOn(s, Event(t, BeginRead(h)), [Event(t, LoadGeneration)] + ([Event(t, Check)] + Fetch(t)));
  }

  /** ... from where the check of the next read serves it, for as long as the generation stays. */
  lemma CachedFileServes(s: State, t: Tid, h: HandleId)
    requires t in s.threads && h in s.handles && s.bases != [] && s.threads[t] == Checking(h, |s.bases| - 1)
    requires s.handles[h].cache == BaseFile(Gen(s))
    ensures Enabled(s, t, Check) && Next(s, t, Check).threads[t] == Returned(BaseNow(s))
    ensures Next(s, t, Check).handles == s.handles
  {
  }

  // ---------- The handle in place ----------

  /** The critical section of closeCachedFile is the protocol's. */
  ghost predicate ClosesAs(before: Handle, after: Handle, s: State, t: Tid, h: HandleId) {
    h in s.handles && s.handles[h] == before && Enabled(s, t, CloseOne(h)) ==>
      Move(s, t, CloseOne(h)).s.handles == s.handles[h := after]
  }

  /** So is the first section of a read: serve from the cache, drop an outdated base file, or capture the number. */
  ghost predicate ChecksAs(before: Handle, after: Handle, gen: nat, hit: bool, dropped: bool, captured: nat,
                           s: State, t: Tid, h: HandleId)
  {
    h in s.handles && s.handles[h] == before && t in s.threads && s.threads[t] == Checking(h, gen) ==>
      var m := Move(s, t, Check);
      && m.s.handles == s.handles[h := after]
      && m.pc == if hit then Returned(Serves(s, before.cache))
                 else if dropped then Recapturing(h) else LookingUp(h, captured)
  }

  /** And the last: keep the opened base file only if nothing was invalidated meanwhile. */
  ghost predicate InstallsAs(before: Handle, after: Handle, captured: nat, gen: nat, installed: bool, s: State, t: Tid,
      h: HandleId) {
    h in s.handles && s.handles[h] == before && t in s.threads && s.threads[t] == Installing(h, captured, gen) ==>
      var m := Move(s, t, Install);
      && m.s.handles == s.handles[h := after]
      && m.pc == if installed then Returned(Serves(s, BaseFile(gen))) else Falling(h)
  }

  /** The critical sections of a file handle; a detached handle keeps its file for good. */
  class FileHandle {
    var cache: Cache
    var invalidateSeq: nat
    var detached: bool

    ghost function Guarded(): Handle
      reads this
    {
      Handle(cache, invalidateSeq)
    }

    constructor (cache: Cache)
      ensures Guarded() == Handle(cache, 0) && !detached
    {
      this.cache, invalidateSeq, detached := cache, 0, false;
    }

    method CloseCachedFile()
      modifies this
      ensures detached == old(detached) && (detached ==> Guarded() == old(Guarded()))
      ensures !detached ==> forall s: State, t: Tid, h: HandleId :: ClosesAs(old(Guarded()), Guarded(), s, t, h)
    {
      if detached { return; }
      cache := NoFile;
      invalidateSeq := invalidateSeq + 1;
    }

    method CheckCache(currentGen: nat) returns (hit: bool, dropped: bool, captured: nat)
      requires !detached
      modifies this
      ensures !detached && (hit ==> !dropped)
      ensures forall s: State, t: Tid, h: HandleId ::
                ChecksAs(old(Guarded()), Guarded(), currentGen, hit, dropped, captured, s, t, h)
    {
      hit := cache.BackingFile? || cache == BaseFile(currentGen);
      dropped := !hit && !cache.NoFile?;
      captured := invalidateSeq;
      if dropped {
        cache := NoFile;
        invalidateSeq := invalidateSeq + 1;
      }
    }

    method InstallBase(captured: nat, gen: nat, currentGen: nat) returns (installed: bool)
      requires !detached
      modifies this
      ensures !detached
      ensures forall s: State, t: Tid, h: HandleId :: Gen(s) == currentGen ==>
                InstallsAs(old(Guarded()), Guarded(), captured, gen, installed, s, t, h)
    {
      if invalidateSeq != captured || gen != currentGen { return false; }
      cache := BaseFile(gen);
      installed := true;
    }
  }
}
