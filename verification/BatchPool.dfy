/**
 * The pool of `git cat-file --batch` processes.
 *
 * Pool is the state under the mutex, its functions are the critical sections; the protocol
 * below interleaves them over threads that acquire, hold, release and discard processes.
 * signalLocked closes the current `changed` channel and makes the next one, so a captured
 * channel is closed exactly when a newer one is current.
 */
module BatchPool {
  type Proc = nat

  type Channel = nat

  datatype Pool = Pool(free: seq<Proc>, all: set<Proc>, creating: nat, maxSize: int, closed: bool, changed: Channel)

  function Signalled(p: Pool): Pool {
    p.(changed := p.changed + 1)
  }

  function Load(p: Pool): int {
    |p.all| + p.creating
  }

  datatype Acquired = PoolClosed | Popped(b: Proc) | MayCreate | MustWait(changed: Channel)

  /** The locked part of one round of acquire. */
  function TryAcquire(p: Pool): (Pool, Acquired) {
    if p.closed then (p, PoolClosed)
    else if p.free != [] then (p.(free := p.free[..|p.free| - 1]), Popped(p.free[|p.free| - 1]))
    else if Load(p) < p.maxSize then (p.(creating := p.creating + 1), MayCreate)
    else (p, MustWait(p.changed))
  }

  /** An acquire would not have to wait. */
  predicate CanProceed(p: Pool) {
    p.closed || p.free != [] || Load(p) < p.maxSize
  }

  /** The locked part after a process was started, or failed to start. */
  function Created(p: Pool, b: Proc, ok: bool): Pool
    requires p.creating > 0
  {
    Signalled(p.(creating := p.creating - 1, all := if ok && !p.closed then p.all + {b} else p.all))
  }

  function Release(p: Pool, b: Proc): Pool {
    if !p.closed && |p.all| <= p.maxSize then Signalled(p.(free := p.free + [b]))
    else Signalled(p.(all := p.all - {b}))
  }

  function Discard(p: Pool, b: Proc): Pool {
    if b in p.all then Signalled(p.(all := p.all - {b})) else p
  }

  function CloseAll(p: Pool): Pool {
    if p.closed then p else Signalled(p.(closed := true, all := {}, free := []))
  }

  /** Free processes leave from the end while the pool is above its new size. */
  function Shrunk(p: Pool): Pool
    decreases |p.free|
  {
    if |p.all| > p.maxSize && p.free != [] then
      var b := p.free[|p.free| - 1];
      Shrunk(p.(free := p.free[..|p.free| - 1], all := p.all - {b}))
    else p
  }

  function Resized(p: Pool, n: int): Pool {
    Signalled(Shrunk(p.(maxSize := n)))
  }

  predicate Distinct(free: seq<Proc>) {
    forall i, j :: 0 <= i < j < |free| ==> free[i] != free[j]
  }

  lemma LastOff(free: seq<Proc>)
    requires Distinct(free) && free != []
    ensures Distinct(free[..|free| - 1]) && free[|free| - 1] !in free[..|free| - 1]
    ensures forall b :: b in free <==> b in free[..|free| - 1] || b == free[|free| - 1]
  {
  }

  lemma {:induction false} ShrunkSpec(p: Pool)
    requires Distinct(p.free) && forall b :: b in p.free ==> b in p.all
    ensures var q := Shrunk(p);
            && q.free <= p.free && q.all <= p.all
            && (forall b :: b in p.all - q.all <==> b in p.free && b !in q.free)
            && q == p.(free := q.free, all := q.all)
            && (|q.all| <= q.maxSize || q.free == [])
            && (q.all == p.all || |q.all| >= q.maxSize)
    decreases |p.free|
  {
    if |p.all| > p.maxSize && p.free != [] {
      var b := p.free[|p.free| - 1];
      ShrunkSpec(p.(free := p.free[..|p.free| - 1], all := p.all - {b}));
      assert p.free == p.free[..|p.free| - 1] + [b];
      assert b !in p.free[..|p.free| - 1];
    }
  }

  /** The pool fits its new size as far as free processes can leave, from the end, and no more of them do. */
  ghost predicate Fitted(before: Pool, after: Pool, n: int) {
    && after.maxSize == n && after.closed == before.closed && after.creating == before.creating
    && after.free <= before.free && after.all <= before.all
    && (forall b :: b in before.all - after.all <==> b in before.free && b !in after.free)
    && (|after.all| <= n || after.free == [])
    && (after.all == before.all || |after.all| >= n)
  }

  lemma ResizedFits(p: Pool, n: int)
    requires Distinct(p.free) && forall b :: b in p.free ==> b in p.all
    ensures Fitted(p, Resized(p, n), n)
  {
    ShrunkSpec(p.(maxSize := n));
  }

  // ---------- The protocol ----------

  type Tid = nat

  datatype Pc =
    | Out
    | Acquiring
    | Popping(b: Proc)          // took it from the free list, about to see whether it is alive
    | Starting                  // creating a process
    | Waiting(changed: Channel)
    | Holding(b: Proc)
    | Killing(rest: set<Proc>)  // closeAll after unlocking

  datatype State = State(pool: Pool, threads: map<Tid, Pc>, dead: set<Proc>, nextProc: Proc)

  datatype Action =
    | Begin
    | Round                     // one round of acquire's loop
    | LookAlive                 // alive(): keep the popped process, or discard it and go round again
    | StartOk
    | StartFails
    | WakeUp
    | Cancel                    // the caller's context ends while it waits
    | GiveBack                  // release
    | GiveUp                    // discard
    | Die(b: Proc)              // a process dies on its own
    | Shut                      // the locked part of closeAll
    | Kill(b: Proc)             // closeAll kills one of the processes it took
    | KillsDone
    | Resize(n: int)

  predicate Enabled(s: State, t: Tid, a: Action) {
    t in s.threads &&
    var pc := s.threads[t];
    match a
    case Begin => pc.Out?
    case Round => pc.Acquiring?
    case LookAlive => pc.Popping?
    case StartOk => pc.Starting? && s.pool.creating > 0
    case StartFails => pc.Starting? && s.pool.creating > 0
    case WakeUp => pc.Waiting? && pc.changed < s.pool.changed
    case Cancel => pc.Waiting?
    case GiveBack => pc.Holding?
    case GiveUp => pc.Holding?
    case Die(_) => pc.Out?
    case Shut => pc.Out?
    case Kill(b) => pc.Killing? && b in pc.rest
    case KillsDone => pc.Killing? && pc.rest == {}
    case Resize(_) => pc.Out?
  }

  datatype Moved = Moved(s: State, pc: Pc)

  function Returned(s: State, b: Proc): Moved {
    if b in s.dead then Moved(s.(pool := Discard(s.pool, b)), Out)
    else Moved(s.(pool := Release(s.pool, b)), Out)
  }

  function Move(s: State, t: Tid, a: Action): Moved
    requires Enabled(s, t, a)
  {
    var pc := s.threads[t];
    match a
    case Begin => Moved(s, Acquiring)
    case Round =>
      var (pool, got) := TryAcquire(s.pool);
      Moved(s.(pool := pool),
        match got
        case PoolClosed => Out
        case Popped(b) => Popping(b)
        case MayCreate => Starting
        case MustWait(changed) => Waiting(changed))
    case LookAlive =>
      if pc.b in s.dead then Moved(s.(pool := Discard(s.pool, pc.b)), Acquiring) else Moved(s, Holding(pc.b))
    case StartOk =>
      Moved(s.(pool := Created(s.pool, s.nextProc, true), nextProc := s.nextProc + 1,
               dead := if s.pool.closed then s.dead + {s.nextProc} else s.dead),
            if s.pool.closed then Out else Holding(s.nextProc))
    case StartFails => Moved(s.(pool := Created(s.pool, s.nextProc, false)), Out)
    case WakeUp => Moved(s, Acquiring)
    case Cancel => Moved(s, Out)
    case GiveBack => Returned(s, pc.b)
    case GiveUp => Moved(s.(pool := Discard(s.pool, pc.b), dead := s.dead + {pc.b}), Out)
    case Die(b) => Moved(s.(dead := s.dead + {b}), pc)
    case Shut => Moved(s.(pool := CloseAll(s.pool)), if s.pool.closed then Out else Killing(s.pool.all))
    case Kill(b) => Moved(s.(dead := s.dead + {b}), Killing(pc.rest - {b}))
    case KillsDone => Moved(s, Out)
    case Resize(n) =>
      var pool := Resized(s.pool, n);
      Moved(s.(pool := pool, dead := s.dead + (s.pool.all - pool.all)), pc)
  }

  function Next(s: State, t: Tid, a: Action): State
    requires Enabled(s, t, a)
  {
    var m := Move(s, t, a);
    m.s.(threads := s.threads[t := m.pc])
  }

  // ---------- Invariants ----------

  predicate Holds(s: State, t: Tid, b: Proc) {
    t in s.threads && (s.threads[t].Popping? || s.threads[t].Holding?) && s.threads[t].b == b
  }

  /** While open, the processes are the disjoint union of the free and the held ones. */
  ghost predicate Partitioned(s: State) {
    && Distinct(s.pool.free)
    && (forall b :: b in s.pool.free ==> b in s.pool.all)
    && (forall t, b :: Holds(s, t, b) ==> b !in s.pool.free && (!s.pool.closed ==> b in s.pool.all))
    && (forall b :: b in s.pool.all ==> b in s.pool.free || exists t :: Holds(s, t, b))
    && (s.pool.closed ==> s.pool.all == {})
  }

  /** No process has two holders. */
  ghost predicate Exclusive(s: State) {
    && (forall t, u, b :: Holds(s, t, b) && Holds(s, u, b) ==> t == u)
    && (forall t: Tid, b: Proc :: Holds(s, t, b) ==> b < s.nextProc)
    && (forall b :: b in s.pool.all ==> b < s.nextProc)
  }

  function Starters(s: State): set<Tid> {
    set t | t in s.threads && s.threads[t].Starting?
  }

  ghost predicate Counted(s: State) {
    s.pool.creating == |Starters(s)|
  }

  /** Whoever waits on a channel that is still open could not proceed anyway. */
  ghost predicate NoLostWakeup(s: State) {
    forall t :: t in s.threads && s.threads[t].Waiting? ==>
      s.threads[t].changed <= s.pool.changed && (s.threads[t].changed == s.pool.changed ==> !CanProceed(s.pool))
  }

  ghost predicate Inv(s: State) {
    Partitioned(s) && Exclusive(s) && Counted(s) && NoLostWakeup(s)
  }

  predicate Init(s: State) {
    && s.pool.free == [] && s.pool.all == {} && s.pool.creating == 0 && !s.pool.closed
    && forall t :: t in s.threads ==> s.threads[t].Out?
  }

  lemma InitHolds(s: State)
    requires Init(s)
    ensures Inv(s)
  {
  }

  /** A critical section that lets a waiting acquire proceed has closed the channel it captured. */
  lemma UnblockingSignals(s: State, t: Tid, a: Action)
    requires Partitioned(s) && Enabled(s, t, a) && !CanProceed(s.pool)
    ensures CanProceed(Move(s, t, a).s.pool) ==> Move(s, t, a).s.pool.changed > s.pool.changed
  {
  }

  lemma ChannelsOnlyAdvance(s: State, t: Tid, a: Action)
    requires Partitioned(s) && Enabled(s, t, a)
    ensures Move(s, t, a).s.pool.changed >= s.pool.changed
    ensures Move(s, t, a).pc.Waiting? ==>
              (Move(s, t, a).pc.changed == Move(s, t, a).s.pool.changed && !CanProceed(Move(s, t, a).s.pool)) ||
              (Move(s, t, a).pc == s.threads[t] && (a.Die? || a.Shut? || a.Resize?))
  {
    ShrunkSpec(if a.Resize? then s.pool.(maxSize := a.n) else s.pool);
  }

  lemma KeepsNoLostWakeup(s: State, t: Tid, a: Action)
    requires Inv(s) && Enabled(s, t, a)
    ensures NoLostWakeup(Next(s, t, a))
  {
    ChannelsOnlyAdvance(s, t, a);
    if !CanProceed(s.pool) { UnblockingSignals(s, t, a); }
  }

  /** How many creations a thread accounts for. */
  function Creations(pc: Pc): nat {
    if pc.Starting? then 1 else 0
  }

  lemma {:induction false} ShrunkTouchesBooksOnly(p: Pool)
    ensures Shrunk(p) == p.(free := Shrunk(p).free, all := Shrunk(p).all)
    decreases |p.free|
  {
    if |p.all| > p.maxSize && p.free != [] {
      ShrunkTouchesBooksOnly(p.(free := p.free[..|p.free| - 1], all := p.all - {p.free[|p.free| - 1]}));
    }
  }

  lemma CreationsFollowThread(s: State, t: Tid, a: Action)
    requires Enabled(s, t, a)
    ensures Move(s, t, a).s.pool.creating + Creations(s.threads[t]) == s.pool.creating + Creations(Move(s, t, a).pc)
  {
    if a.Resize? { ShrunkTouchesBooksOnly(s.pool.(maxSize := a.n)); }
  }

  lemma KeepsCounted(s: State, t: Tid, a: Action)
    requires Counted(s) && Enabled(s, t, a)
    ensures Counted(Next(s, t, a))
  {
    CreationsFollowThread(s, t, a);
    StartersFollowThread(s, Move(s, t, a), t);
  }

  lemma SameOthers(before: set<Tid>, after: set<Tid>, t: Tid)
    requires after - {t} == before - {t}
    ensures |after| + (if t in before then 1 else 0) == |before| + if t in after then 1 else 0
  {
    var others := before - {t};
    if t in before { assert before == others + {t}; } else { assert before == others; }
    if t in after { assert after == others + {t}; } else { assert after == others; }
  }

  lemma StartersFollowThread(s: State, m: Moved, t: Tid)
    requires t in s.threads
    ensures |Starters(m.s.(threads := s.threads[t := m.pc]))| + Creations(s.threads[t]) ==
            |Starters(s)| + Creations(m.pc)
  {
    SameOthers(Starters(s), Starters(m.s.(threads := s.threads[t := m.pc])), t);
  }

  function Custody(pc: Pc): set<Proc> {
    if pc.Popping? || pc.Holding? then {pc.b} else {}
  }

  /** The stepping thread's custody moves to or from the books; nobody else's process is touched. */
  ghost predicate Settles(s: State, t: Tid, m: Moved)
    requires t in s.threads
  {
    var was, now := s.threads[t], m.pc;
    && Distinct(m.s.pool.free)
    && (forall b :: b in m.s.pool.free ==> b in m.s.pool.all)
    && (forall b :: b in Custody(now) ==>
       b !in m.s.pool.free && (!m.s.pool.closed ==> b in m.s.pool.all) && b < m.s.nextProc)
    && (forall b :: b in Custody(now) ==> b in Custody(was) || b in s.pool.free || b >= s.nextProc)
    && (forall b :: b in m.s.pool.free ==> b in s.pool.free || b in Custody(was))
    && (forall b :: b in m.s.pool.all ==>
       b in m.s.pool.free || b in Custody(now) || (b in s.pool.all && b !in s.pool.free && b !in Custody(was)))
    && (forall b :: b in s.pool.all && b !in m.s.pool.all ==> m.s.pool.closed || b in s.pool.free || b in Custody(was))
    && (m.s.pool.closed ==> m.s.pool.all == {}) && (s.pool.closed ==> m.s.pool.closed)
    && s.nextProc <= m.s.nextProc && (forall b :: b in m.s.pool.all ==> b < m.s.nextProc)
  }

  lemma RoundSettles(s: State, t: Tid)
    requires Partitioned(s) && Exclusive(s) && Enabled(s, t, Round)
    ensures Settles(s, t, Move(s, t, Round))
  {
    var free := s.pool.free;
    if !s.pool.closed && free != [] {
      LastOff(free);
      var b := free[|free| - 1];
      assert b in free && b in s.pool.all && Move(s, t, Round).pc == Popping(b);
    }
  }

  lemma DiscardSettles(s: State, t: Tid, a: Action)
    requires Partitioned(s) && Exclusive(s) && Enabled(s, t, a) && (a.LookAlive? || a.GiveUp?)
    ensures Settles(s, t, Move(s, t, a))
  {
    assert Holds(s, t, s.threads[t].b);
  }

  lemma GiveBackSettles(s: State, t: Tid)
    requires Partitioned(s) && Exclusive(s) && Enabled(s, t, GiveBack)
    ensures Settles(s, t, Move(s, t, GiveBack))
  {
    assert Holds(s, t, s.threads[t].b);
  }

  lemma StartSettles(s: State, t: Tid, a: Action)
    requires Partitioned(s) && Exclusive(s) && Enabled(s, t, a) && (a.StartOk? || a.StartFails?)
    ensures Settles(s, t, Move(s, t, a))
  {
  }

  lemma ResizeSettles(s: State, t: Tid, a: Action)
    requires Partitioned(s) && Exclusive(s) && Enabled(s, t, a) && a.Resize?
    ensures Settles(s, t, Move(s, t, a))
  {
    ShrunkSpec(s.pool.(maxSize := a.n));
    var q := Shrunk(s.pool.(maxSize := a.n));
    assert forall b :: b in q.free ==> b in s.pool.free;
  }

  lemma StepSettles(s: State, t: Tid, a: Action)
    requires Partitioned(s) && Exclusive(s) && Enabled(s, t, a)
    ensures Settles(s, t, Move(s, t, a))
  {
    if a.Round? { RoundSettles(s, t); }
    else if a.LookAlive? || a.GiveUp? { DiscardSettles(s, t, a); }
    else if a.GiveBack? { GiveBackSettles(s, t); }
    else if a.StartOk? || a.StartFails? { StartSettles(s, t, a); }
    else if a.Resize? { ResizeSettles(s, t, a); }
    else { PlainStepSettles(s, t, a); }
  }

  lemma PlainStepSettles(s: State, t: Tid, a: Action)
    requires Partitioned(s) && Exclusive(s) && Enabled(s, t, a)
    requires a.Begin? || a.WakeUp? || a.Cancel? || a.Die? || a.Shut? || a.Kill? || a.KillsDone?
    ensures Settles(s, t, Move(s, t, a))
  {
  }

  lemma SettlingKeepsPartition(s: State, t: Tid, m: Moved)
    requires Partitioned(s) && Exclusive(s) && t in s.threads && Settles(s, t, m)
    ensures Partitioned(m.s.(threads := s.threads[t := m.pc])) && Exclusive(m.s.(threads := s.threads[t := m.pc]))
  {
    var s' := m.s.(threads := s.threads[t := m.pc]);
    forall u, b ensures Holds(s', u, b) <==> if u == t then b in Custody(m.pc) else Holds(s, u, b) {}
    assert forall b :: b in Custody(s.threads[t]) <==> Holds(s, t, b);
    forall b | b in s'.pool.all ensures b in s'.pool.free || exists u :: Holds(s', u, b) {
      if b in Custody(m.pc) { assert Holds(s', t, b); }
      else if b !in s'.pool.free {
        var u :| Holds(s, u, b);
        assert u != t && Holds(s', u, b);
      }
    }
  }

  lemma InvStep(s: State, t: Tid, a: Action)
    requires Inv(s) && Enabled(s, t, a)
    ensures Inv(Next(s, t, a))
  {
    StepSettles(s, t, a);
    SettlingKeepsPartition(s, t, Move(s, t, a));
    KeepsCounted(s, t, a);
    KeepsNoLostWakeup(s, t, a);
  }

  // ---------- What it means ----------

  /** Processes plus creations never grow past the limit in force. */
  lemma NeverGrowsPastLimit(s: State, t: Tid, a: Action)
    requires Partitioned(s) && Enabled(s, t, a)
    ensures Load(Next(s, t, a).pool) <= Load(s.pool) || Load(Next(s, t, a).pool) <= Next(s, t, a).pool.maxSize
  {
    if a.Resize? { ShrunkLoad(s.pool.(maxSize := a.n)); }
  }

  lemma {:induction false} ShrunkLoad(p: Pool)
    ensures Load(Shrunk(p)) <= Load(p)
    decreases |p.free|
  {
    if |p.all| > p.maxSize && p.free != [] {
      ShrunkLoad(p.(free := p.free[..|p.free| - 1], all := p.all - {p.free[|p.free| - 1]}));
    }
  }

  /**
   * Once the pool is closed no process gets a new holder, and an acquire hands out exactly a
   * process that it had popped before the close and finds alive.
   */
  lemma HandedOutAfterCloseIff(s: State, t: Tid, a: Action, b: Proc)
    requires Enabled(s, t, a) && s.pool.closed
    ensures Holds(Next(s, t, a), t, b) ==> Holds(s, t, b)
    ensures Next(s, t, a).threads[t] == Holding(b) && s.threads[t] != Holding(b) <==>
              s.threads[t] == Popping(b) && a.LookAlive? && b !in s.dead
  {
  }

  datatype Event = Event(t: Tid, a: Action)

  ghost predicate Runs(s: State, events: seq<Event>)
    decreases |events|
  {
    events == [] ||
    (Enabled(s, events[0].t, events[0].a) && Runs(Next(s, events[0].t, events[0].a), events[1..]))
  }

  ghost function After(s: State, events: seq<Event>): State
    requires Runs(s, events)
    decreases |events|
  {
    if events == [] then s else After(Next(s, events[0].t, events[0].a), events[1..])
  }

  lemma {:induction false} InvOverRuns(s: State, events: seq<Event>)
    requires Inv(s) && Runs(s, events)
    ensures Inv(After(s, events))
    decreases |events|
  {
    if events != [] {
      InvStep(s, events[0].t, events[0].a);
      InvOverRuns(Next(s, events[0].t, events[0].a), events[1..]);
    }
  }

  /** So whatever runs after a close, every process then held or looked at was so when the pool closed. */
  lemma {:induction false} OnlyOldHoldersAfterClose(s: State, events: seq<Event>, t: Tid, b: Proc)
    requires s.pool.closed && Runs(s, events) && Holds(After(s, events), t, b)
    ensures Holds(s, t, b) && After(s, events).pool.closed
    decreases |events|
  {
    if events != [] {
      var e := events[0];
      StaysClosed(s, e.t, e.a);
      OnlyOldHoldersAfterClose(Next(s, e.t, e.a), events[1..], t, b);
      if e.t == t { HandedOutAfterCloseIff(s, t, e.a, b); }
    }
  }

  lemma RunsOn(s: State, e: Event, rest: seq<Event>)
    requires Enabled(s, e.t, e.a) && Runs(Next(s, e.t, e.a), rest)
    ensures Runs(s, [e] + rest) && After(s, [e] + rest) == After(Next(s, e.t, e.a), rest)
  {
    assert ([e] + rest)[1..] == rest;
  }

  /** One thread starts a process and gives it back, and pops it again; another closes the pool; the first looks. */
  function PopThenClose(t: Tid, u: Tid): seq<Event> {
    [Event(t, Begin)] + ([Event(t, Round)] + ([Event(t, StartOk)] + ([Event(t, GiveBack)] + PopAgainThenClose(t, u))))
  }

  function PopAgainThenClose(t: Tid, u: Tid): seq<Event> {
    [Event(t, Begin)] + ([Event(t, Round)] + ([Event(u, Shut)] + ([Event(t, LookAlive)] + [])))
  }

  lemma PoppedThenClosed(s: State, t: Tid, u: Tid, b: Proc)
    requires t in s.threads && u in s.threads && t != u && s.threads[t].Out? && s.threads[u].Out?
    requires s.pool.free == [b] && !s.pool.closed && b !in s.dead
    ensures Runs(s, PopAgainThenClose(t, u))
    ensures var n := After(s, PopAgainThenClose(t, u));
            n.pool.closed && t in n.threads && n.threads[t] == Holding(b)
  {
    var s1 := Next(s, t, Begin);
    var s2 := Next(s1, t, Round);
    assert s2.threads[t] == Popping(b) && s2.threads[u].Out?;
    var s3 := Next(s2, u, Shut);
    assert s3.threads[t] == Popping(b) && s3.pool.closed;
    RunsOn(s3, Event(t, LookAlive), []);
    RunsOn(s2, Event(u, Shut), [Event(t, LookAlive)] + []);
    RunsOn(s1, Event(t, Round), [Event(u, Shut)] + ([Event(t, LookAlive)] + []));
    RunsOn(s, Event(t, Begin), [Event(t, Round)] + ([Event(u, Shut)] + ([Event(t, LookAlive)] + [])));
  }

  /** So from any fresh pool a closed one can still hand out a process. */
  lemma HandedOutAfterClose(s: State, t: Tid, u: Tid)
    requires Init(s) && t in s.threads && u in s.threads && t != u && s.pool.maxSize > 0 && s.nextProc !in s.dead
    ensures Runs(s, PopThenClose(t, u))
    ensures var n := After(s, PopThenClose(t, u));
            n.pool.closed && t in n.threads && n.threads[t] == Holding(s.nextProc)
  {
    var s1 := Next(s, t, Begin);
    var s2 := Next(s1, t, Round);
    assert s2.threads[t] == Starting && s2.pool.creating == 1;
    var s3 := Next(s2, t, StartOk);
    assert s3.threads[t] == Holding(s.nextProc) && s3.pool.all == {s.nextProc};
    var s4 := Next(s3, t, GiveBack);
    assert s4.pool.free == [s.nextProc] && s4.threads[u].Out?;
    var again := PopAgainThenClose(t, u);
    PoppedThenClosed(s4, t, u, s.nextProc);
    RunsOn(s3, Event(t, GiveBack), again);
    RunsOn(s2, Event(t, StartOk), [Event(t, GiveBack)] + again);
    RunsOn(s1, Event(t, Round), [Event(t, StartOk)] + ([Event(t, GiveBack)] + again));
    RunsOn(s, Event(t, Begin), [Event(t, Round)] + ([Event(t, StartOk)] + ([Event(t, GiveBack)] + again)));
  }

  lemma StaysClosed(s: State, t: Tid, a: Action)
    requires s.pool.closed && Enabled(s, t, a)
    ensures Next(s, t, a).pool.closed
  {
    if a.Resize? { ShrunkTouchesBooksOnly(s.pool.(maxSize := a.n)); }
  }

  /** In every interleaving: one holder per process, a partition while open, and no waiter left asleep. */
  lemma PoolOverRuns(s: State, events: seq<Event>)
    requires Init(s) && Runs(s, events)
    ensures var s' := After(s, events);
            && (forall t, u, b :: Holds(s', t, b) && Holds(s', u, b) ==> t == u)
            && (!s'.pool.closed ==> forall b :: b in s'.pool.all <==> b in s'.pool.free || exists t :: Holds(s', t, b))
            && (forall t, b :: Holds(s', t, b) ==> b !in s'.pool.free)
            && s'.pool.creating == |Starters(s')|
            && (forall t :: t in s'.threads && s'.threads[t].Waiting? && CanProceed(s'.pool) ==> Enabled(s', t, WakeUp))
  {
    InitHolds(s);
    InvOverRuns(s, events);
  }

  /** Exactly the processes that left. */
  ghost predicate OutOf(extras: seq<Proc>, before: set<Proc>, after: set<Proc>) {
    forall b :: b in extras <==> b in before && b !in after
  }

  lemma OneMoreOut(extras: seq<Proc>, before: set<Proc>, after: set<Proc>, b: Proc)
    requires OutOf(extras, before, after) && b in before
    ensures OutOf(extras + [b], before, after - {b})
  {
  }

  // ---------- The pool in place ----------

  /** The critical sections on the fields they rewrite. */
  class ProcessPool {
    var free: seq<Proc>
    var all: set<Proc>
    var creating: nat
    var maxSize: int
    var closed: bool
    var changed: Channel

    ghost function State(): Pool
      reads this
    {
      Pool(free, all, creating, maxSize, closed, changed)
    }

    constructor (maxSize: int)
      ensures State() == Pool([], {}, 0, maxSize, false, 0)
    {
      free, all, creating, closed, changed := [], {}, 0, false, 0;
      this.maxSize := maxSize;
    }

    /** One locked round of acquire. */
    method AcquireLocked() returns (got: Acquired)
      modifies this
      ensures (State(), got) == TryAcquire(old(State()))
      ensures all == old(all) && closed == old(closed) && maxSize == old(maxSize) && changed == old(changed)
      ensures got.PoolClosed? <==> closed
      ensures got.Popped? <==> !closed && old(free) != []
      ensures if got.Popped? then old(free) == free + [got.b] else free == old(free)
      ensures got.MayCreate? <==> !closed && old(free) == [] && |all| + old(creating) < maxSize
      ensures creating == old(creating) + if got.MayCreate? then 1 else 0
      ensures got.MustWait? ==> got.changed == changed
    {
      if closed { return PoolClosed; }
      if |free| > 0 {
        got := Popped(free[|free| - 1]);
        free := free[..|free| - 1];
        return;
      }
      if |all| + creating < maxSize {
        creating := creating + 1;
        return MayCreate;
      }
      got := MustWait(changed);
    }

    method CreatedLocked(b: Proc, ok: bool) returns (wasClosed: bool)
      requires creating > 0
      modifies this
      ensures State() == Created(old(State()), b, ok) && wasClosed == closed
      ensures closed == old(closed) && maxSize == old(maxSize) && free == old(free)
      ensures creating == old(creating) - 1 && changed > old(changed)
      ensures all == old(all) + if ok && !closed then {b} else {}
    {
      creating := creating - 1;
      if ok && !closed { all := all + {b}; }
      wasClosed, changed := closed, changed + 1;
    }

    method ReleaseLocked(b: Proc) returns (kept: bool)
      modifies this
      ensures State() == Release(old(State()), b)
      ensures kept <==> !closed && |old(all)| <= maxSize
      ensures closed == old(closed) && maxSize == old(maxSize) && creating == old(creating) && changed > old(changed)
      ensures if kept then free == old(free) + [b] && all == old(all) else free == old(free) && all == old(all) - {b}
    {
      kept := !closed && |all| <= maxSize;
      if kept { free := free + [b]; } else { all := all - {b}; }
      changed := changed + 1;
    }

    method DiscardLocked(b: Proc)
      modifies this
      ensures State() == Discard(old(State()), b)
      ensures all == old(all) - {b} && free == old(free) && creating == old(creating) && closed == old(closed)
      ensures b in old(all) ==> changed > old(changed)
    {
      if b in all {
        all := all - {b};
        changed := changed + 1;
      }
    }

    method CloseAllLocked() returns (doomed: set<Proc>)
      modifies this
      ensures State() == CloseAll(old(State()))
      ensures closed && (!old(closed) ==> all == {} && free == [] && changed > old(changed))
      ensures doomed == if old(closed) then {} else old(all)
    {
      if closed { return {}; }
      doomed := all;
      closed, all, free, changed := true, {}, [], changed + 1;
    }

    /** The extras leave the free list one by one; the caller closes them after unlocking. */
    method SetMaxSize(n: int) returns (extras: seq<Proc>)
      requires Distinct(free) && forall b :: b in free ==> b in all
      modifies this
      ensures State() == Resized(old(State()), n)
      ensures OutOf(extras, old(all), all)
      ensures Fitted(old(State()), State(), n)
    {
      maxSize, extras := n, [];
      ghost var start := State();
      while |all| > n && |free| > 0
        invariant Shrunk(State()) == Shrunk(start) && maxSize == n
        invariant Distinct(free) && forall b :: b in free ==> b in all
        invariant all <= start.all && OutOf(extras, start.all, all)
        decreases |free|
      {
        var b := free[|free| - 1];
        LastOff(free);
        OneMoreOut(extras, start.all, all, b);
        free, all, extras := free[..|free| - 1], all - {b}, extras + [b];
      }
      changed := changed + 1;
      ResizedFits(old(State()), n);
    }
  }
}
