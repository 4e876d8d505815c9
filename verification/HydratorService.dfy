/**
 * The hydrator's critical sections on the fields they rewrite: heap, dedupe map, active set,
 * wait lists and stop flag.  Each one refines a step of the protocol: from the shared state of
 * any protocol state whose thread stands before the step, the step is enabled, leads to the
 * shared state the section leaves, and sends the thread where the section's result sends it.
 */
module HydratorService {
  import opened TaskHeaps
  import opened TaskQueue
  import opened Inflight
  import opened Hydrator

  /** What the mutex protects. */
  datatype Shared = Shared(pending: map<Key, Task>, active: set<Key>, wait: Lists, stopped: bool)

  function SharedOf(s: State): Shared {
    Shared(s.pending, s.active, s.wait, s.stopped)
  }

  /** A channel just made is registered nowhere yet. */
  predicate NewChannel(s: State, a: Action) {
    (a.Join? || a.Register?) ==> a.ch !in s.place
  }

  ghost predicate Steps(before: Shared, after: Shared, a: Action, from: Pc, to: Pc, s: State, t: Tid) {
    SharedOf(s) == before && t in s.threads && s.threads[t] == from && NewChannel(s, a) ==>
      Enabled(s, t, a) && SharedOf(Move(s, t, a).s) == after && Move(s, t, a).pc == to
  }

  ghost predicate Refines(before: Shared, after: Shared, a: Action, from: Pc, to: Pc) {
    forall s: State, t: Tid :: Steps(before, after, a, from, to, s, t)
  }

  /** Every waiting channel stands in one list once, and nothing was sent to it yet. */
  ghost predicate DistinctWaiters(wait: Lists, sent: map<Chan, Outcome>) {
    && (forall k :: k in wait ==> NoRepeats(wait[k]))
    && (forall k, ch :: k in wait && ch in wait[k] ==> ch !in sent)
    && (forall k, l, ch :: k in wait && l in wait && k != l && ch in wait[k] ==> ch !in wait[l])
  }

  /** The protocol's invariant gives stop what it needs. */
  lemma PlacedIsDistinct(s: State)
    requires Placed(s)
    ensures DistinctWaiters(s.wait, s.sent)
  {
    forall k, ch | k in s.wait && ch in s.wait[k]
      ensures PlacedAt(s, ch, Waiting(k))
    {
      assert ch in Waiters(s.wait, k);
    }
  }

  lemma AllWaitersAreRegistered(s: State)
    requires WaitPlaced(s)
    ensures forall ch :: ch in AllWaiters(s) <==> Inflight.Registered(s.wait, ch)
  {
    forall ch ensures ch in AllWaiters(s) <==> Inflight.Registered(s.wait, ch) {
      if ch in AllWaiters(s) {
        assert PlacedAt(s, ch, Waiting(s.place[ch].key));
        assert ch in Waiters(s.wait, s.place[ch].key);
      }
      if Inflight.Registered(s.wait, ch) {
        var k :| k in s.wait && ch in s.wait[k];
        assert ch in Waiters(s.wait, k) && PlacedAt(s, ch, Waiting(k));
      }
    }
  }

  /** What stop sends is what the protocol says it sends. */
  lemma HaltSends(s: State, after: map<Chan, Outcome>)
    requires WaitPlaced(s)
    requires forall ch :: ch in after <==> ch in s.sent || Inflight.Registered(s.wait, ch)
    requires forall ch :: ch in after ==>
        after[ch] == if Inflight.Registered(s.wait, ch) then Outcome.Stopped else s.sent[ch]
    ensures AllStopped(s).sent == after
  {
    AllWaitersAreRegistered(s);
  }

  lemma HaltRefines(before: Shared, after: Shared)
    requires !before.stopped && after == Shared(map[], before.active, map[], true)
    ensures Refines(before, after, Stop, Outside, Outside)
  {
  }

  /** The first `i` tasks are dealt with. */
  ghost predicate EnqueuedFirst(before: Shared, tasks: seq<Task>, i: nat, pending: map<Key, Task>, signals: nat)
    requires i <= |tasks|
  {
    var (rest, n) := EnqueueAll(pending, before.active, tasks[i..]);
    EnqueueAll(before.pending, before.active, tasks) == (rest, signals + n)
  }

  lemma EnqueueingRefines(before: Shared, tasks: seq<Task>, pending: map<Key, Task>, signals: nat)
    requires (pending, signals) ==
             if before.stopped then (before.pending, 0) else EnqueueAll(before.pending, before.active, tasks)
    ensures Refines(before, before.(pending := pending), Enqueue(tasks), Outside,
              if signals > 0 then Enqueued(signals) else Outside)
  {
  }

  datatype Registration = Refused | Joined | First

  /** What registering a waiter makes of the shared state, and what it reports. */
  function Registering(before: Shared, task: Task, ch: Chan): (Shared, Registration) {
    var joined := before.(wait := Added(before.wait, task.key, ch));
    if before.stopped then (before, Refused)
    else if task.key in before.active || Waiters(before.wait, task.key) != []
        || !Accepts(before.pending, before.active, task)
    then (joined, Joined)
    else (joined.(pending := before.pending[task.key := task]), First)
  }

  lemma RegisteringRefines(before: Shared, task: Task, ch: Chan)
    ensures Refines(before, Registering(before, task, ch).0, Register(ch, task), Checking(task.key),
              match Registering(before, task, ch).1
              case Refused => Outside
              case Joined => Awaiting(task.key, ch)
              case First => Announcing(task.key, ch))
  {
  }

  /** The channel waits for the key, after all that did before. */
  ghost predicate Attached(before: Lists, after: Lists, key: Key, ch: Chan) {
    && Waiters(after, key) == Waiters(before, key) + [ch]
    && forall k :: k != key ==> Waiters(after, k) == Waiters(before, k)
  }

  class Service {
    const queue: Queue
    const table: Table<Outcome>
    var stopped: bool

    ghost predicate Valid()
      reads this, queue, queue.repr, table
    {
      queue.Valid() && NoneEmpty(table.wait)
    }

    ghost function Guarded(): Shared
      reads this, queue, table
    {
      Shared(queue.pending, queue.active, table.wait, stopped)
    }

    constructor ()
      ensures Valid() && Guarded() == Shared(map[], {}, map[], false)
      ensures fresh(queue) && fresh(queue.repr) && fresh(table)
    {
      queue := new Queue();
      table := new Table();
      stopped := false;
    }

    /** EnqueueBatch, and Enqueue for a single task: the signals due after unlocking. */
    method EnqueueBatch(tasks: seq<Task>) returns (signals: nat)
      requires Valid()
      modifies queue`items, queue`queued, queue`repr, queue`tasks, queue`pending, queue.repr
      ensures Valid() && fresh(queue.repr - old(queue.repr))
      ensures Refines(old(Guarded()), Guarded(), Enqueue(tasks), Outside,
                if signals > 0 then Enqueued(signals) else Outside)
      ensures stopped == old(stopped) && queue.active == old(queue.active)
      ensures stopped ==> queue.pending == old(queue.pending) && signals == 0
      ensures !stopped ==>
                && Batched(old(queue.pending), queue.active, tasks, queue.pending)
                && signals == |Rising(old(queue.pending), queue.active, tasks)|
    {
      signals := 0;
      ghost var before := Guarded();
      if stopped {
        EnqueueingRefines(before, tasks, queue.pending, 0);
        return;
      }
      EnqueueAllBatches(queue.pending, queue.active, tasks);
      for i := 0 to |tasks|
        invariant Valid() && fresh(queue.repr - old(queue.repr))
        invariant Guarded() == before.(pending := queue.pending)
        invariant EnqueuedFirst(before, tasks, i, queue.pending, signals)
      {
        assert tasks[i..][1..] == tasks[i + 1..];
        var signal := queue.EnqueueLocked(tasks[i]);
        if signal { signals := signals + 1; }
      }
      EnqueueingRefines(before, tasks, queue.pending, signals);
    }

    /** joinInflight */
    method JoinInflight(key: Key, ch: Chan) returns (joined: bool)
      requires Valid()
      modifies table
      ensures Valid()
      ensures Refines(old(Guarded()), Guarded(), Join(ch), Joining(key),
                if joined then Awaiting(key, ch) else Checking(key))
      ensures joined <==> key in queue.active || key in old(table.wait)
      ensures if joined then Attached(old(table.wait), table.wait, key, ch) else table.wait == old(table.wait)
    {
      if key !in queue.active && key !in table.wait { return false; }
      var _ := table.Add(key, ch);
      joined := true;
    }

    /** enqueueLocked for a caller that holds the lock. */
    method EnqueueOne(task: Task) returns (signal: bool)
      requires queue.Valid()
      modifies queue`items, queue`queued, queue`repr, queue`tasks, queue`pending, queue.repr
      ensures queue.Valid() && fresh(queue.repr - old(queue.repr))
      ensures signal == Accepts(old(queue.pending), queue.active, task)
      ensures queue.pending == if signal then old(queue.pending)[task.key := task] else old(queue.pending)
      ensures Batched(old(queue.pending), queue.active, [task], queue.pending)
      ensures signal <==> Rises(old(queue.pending), queue.active, [task], 0)
    {
      EnqueueAllBatches(queue.pending, queue.active, [task]);
      assert [task][1..] == [];
      signal := queue.EnqueueLocked(task);
    }

    /** The last locked part of EnsureHydrated. */
    method RegisterWaiter(task: Task, ch: Chan) returns (got: Registration)
      requires Valid()
      modifies table, queue`items, queue`queued, queue`repr, queue`tasks, queue`pending, queue.repr
      ensures Valid() && fresh(queue.repr - old(queue.repr))
      ensures Refines(old(Guarded()), Guarded(), Register(ch, task), Checking(task.key),
                match got case Refused => Outside case Joined => Awaiting(task.key, ch)
                    case First => Announcing(task.key, ch))
      ensures stopped == old(stopped) && queue.active == old(queue.active) && (got.Refused? <==> stopped)
      ensures if stopped then table.wait == old(table.wait) else Attached(old(table.wait), table.wait, task.key, ch)
      ensures stopped || task.key in queue.active || task.key in old(table.wait) ==> queue.pending == old(queue.pending)
      ensures !stopped && task.key !in queue.active && task.key !in old(table.wait) ==>
                && Batched(old(queue.pending), queue.active, [task], queue.pending)
                && (got.First? <==> Rises(old(queue.pending), queue.active, [task], 0))
    {
      ghost var before := Guarded();
      RegisteringRefines(before, task, ch);
      if stopped { return Refused; }
      if task.key in queue.active || task.key in table.wait {
        var _ := table.Add(task.key, ch);
        return Joined;
      }
      var first := table.Add(task.key, ch);
      if first { first := EnqueueOne(task); }
      got := if first then First else Joined;
      assert (Guarded(), got) == Registering(before, task, ch);
    }

    /** The locked part of awaitHydration when the caller's context ends. */
    method GiveUpWaiting(key: Key, ch: Chan)
      requires Valid()
      modifies table
      ensures Valid()
      ensures Refines(old(Guarded()), Guarded(), GiveUp, Awaiting(key, ch), Outside)
      ensures forall k :: k != key ==> Waiters(table.wait, k) == Waiters(old(table.wait), k)
      ensures NoRepeats(Waiters(old(table.wait), key)) ==> forall c ::
                c in Waiters(table.wait, key) <==> c in Waiters(old(table.wait), key) && c != ch
    {
      if NoRepeats(Waiters(table.wait, key)) { WithoutSpec(Waiters(table.wait, key), ch); }
      table.Remove(key, ch);
    }

    /** The locked part of step; that a popped key is never active already is the queue's invariant. */
    method StepLocked() returns (taken: bool, task: Task, more: bool)
      requires Valid()
      modifies queue`items, queue`queued, queue`active, queue`tasks, queue`pending, queue.repr
      ensures Valid()
      ensures Refines(old(Guarded()), Guarded(), Pop(task.key), Popping,
                if !taken then Idle else if more then PoppedMore(task.key) else Fetching(task.key))
      ensures taken <==> old(queue.pending) != map[]
      ensures !taken ==> queue.pending == old(queue.pending) && queue.active == old(queue.active)
      ensures taken ==>
                && task.key in old(queue.pending) && task == old(queue.pending)[task.key]
                && (forall k :: k in old(queue.pending) ==>
                      old(queue.pending)[k].priority < task.priority ||
                      (old(queue.pending)[k].priority == task.priority &&
                       task.enqueuedAt <= old(queue.pending)[k].enqueuedAt))
                && queue.pending == old(queue.pending) - {task.key}
                && queue.active == old(queue.active) + {task.key} && task.key !in old(queue.active)
                && (more <==> queue.pending != map[])
    {
      taken, task, more := queue.TakeNext();
    }

    /** finishHydration up to the sends. */
    method FinishHydration(key: Key, outcome: Outcome) returns (waiters: seq<Chan>)
      requires Valid()
      modifies table, queue`active
      ensures Valid()
      ensures Refines(old(Guarded()), Guarded(), Finish(outcome), Fetching(key), Notifying(waiters, outcome))
      ensures waiters == Waiters(old(table.wait), key) && table.wait == old(table.wait) - {key}
      ensures queue.active == old(queue.active) - {key}
    {
      waiters := table.Take(key);
      queue.FinishLocked(key);
    }

    /** The locked part of step after a successful fetch. */
    method FetchSucceeded(key: Key, size: nat) returns (dropped: bool, waiters: seq<Chan>)
      requires Valid()
      modifies table, queue`active
      ensures Valid()
      ensures Refines(old(Guarded()), Guarded(), FetchOk(size), Fetching(key),
                if dropped then Stepped else Notifying(waiters, Hydrated(size)))
      ensures queue.active == old(queue.active) - {key} && (dropped <==> stopped)
      ensures if stopped then waiters == [] && table.wait == old(table.wait)
              else waiters == Waiters(old(table.wait), key) && table.wait == old(table.wait) - {key}
    {
      dropped, waiters := stopped, [];
      if !stopped { waiters := table.Take(key); }
      queue.FinishLocked(key);
    }

    /** Stop, once: every waiter registered so far is answered before the lock is released. */
    method Halt(sent: map<Chan, Outcome>) returns (after: map<Chan, Outcome>)
      requires Valid() && !stopped && DistinctWaiters(table.wait, sent)
      modifies this`stopped, table, queue`items, queue`queued, queue`tasks, queue`pending
      ensures Valid()
      ensures Refines(old(Guarded()), Guarded(), Stop, Outside, Outside)
      ensures stopped && queue.pending == map[] && queue.active == old(queue.active) && table.wait == map[]
      ensures forall c :: c in after <==> c in sent || Inflight.Registered(old(table.wait), c)
      ensures forall c :: c in after ==>
                after[c] == if Inflight.Registered(old(table.wait), c) then Outcome.Stopped else sent[c]
      ensures forall s: State :: WaitPlaced(s) && SharedOf(s) == old(Guarded()) && s.sent == sent ==>
          AllStopped(s).sent == after
    {
      ghost var before := Guarded();
      stopped := true;
      after := table.CloseAll(sent, Outcome.Stopped);
      queue.Clear();
      HaltRefines(before, Guarded());
      forall s: State | WaitPlaced(s) && SharedOf(s) == before && s.sent == sent ensures AllStopped(s).sent == after {
        HaltSends(s, after);
      }
    }
  }
}
