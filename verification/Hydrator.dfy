/**
 * The hydrator as interleaved atomic steps, one per critical section or channel operation.
 * Callers and workers are threads with a program counter; the queue is the abstract one of
 * TaskQueue, so any best pending task may be popped.
 */
module Hydrator {
  import opened TaskHeaps
  import opened Inflight

  type Tid = nat

  datatype Outcome = Hydrated(size: nat) | Failed | Stopped

  datatype Pc =
    | Outside
    | Joining(key: Key)                                // EnsureHydrated, first stop check passed
    | Checking(key: Key)                               // validating the cached blob
    | Announcing(key: Key, ch: Chan)                   // registered and enqueued, about to signal
    | Awaiting(key: Key, ch: Chan)
    | Enqueued(signals: nat)                           // Enqueue or EnqueueBatch, about to signal
    | Idle                                             // worker in its select
    | Popping                                          // worker about to call step
    | PoppedMore(key: Key)                             // step saw more work, about to signal
    | Fetching(key: Key)
    | Notifying(waiters: seq<Chan>, outcome: Outcome)
    | Stepped                                          // step returned true, about to signal
    | Exited

  /** Where a registered waiter channel is: in a wait list, in a worker's hands, answered, or given up. */
  datatype Place = Waiting(key: Key) | Held(worker: Tid) | Answered | Abandoned

  datatype State = State(
    pending: map<Key, Task>,
    active: set<Key>,
    wait: map<Key, seq<Chan>>,
    stopped: bool,
    token: bool,                   // the slot of workReady
    sent: map<Chan, Outcome>,      // what each channel's buffer received
    threads: map<Tid, Pc>,
    place: map<Chan, Place>,       // history: one entry per registered channel
    early: set<Chan>)              // history: channels registered before Stop

  datatype Action =
    | Enqueue(tasks: seq<Task>)
    | Signal
    | Ensure(key: Key)
    | Join(ch: Chan)
    | CacheSettles
    | Register(ch: Chan, task: Task)
    | GiveUp
    | Receive
    | Wake
    | Exit
    | Pop(key: Key)
    | Finish(outcome: Outcome)
    | FetchOk(size: nat)
    | Notify
    | Stop

  // ---------- Steps ----------

  function EnqueueAll(pending: map<Key, Task>, active: set<Key>, tasks: seq<Task>): (map<Key, Task>, nat)
    decreases |tasks|
  {
    if tasks == [] then (pending, 0)
    else
      var accepted := Accepts(pending, active, tasks[0]);
      var (rest, n) := EnqueueAll(if accepted then pending[tasks[0].key := tasks[0]] else pending, active, tasks[1..]);
      (rest, if accepted then n + 1 else n)
  }

  /** The shared state after a step, and the stepping thread's next program counter. */
  datatype Moved = Moved(s: State, pc: Pc)

  function Registered(s: State, key: Key, ch: Chan): State {
    s.(wait := Added(s.wait, key, ch), place := s.place[ch := Waiting(key)],
       early := if s.stopped then s.early else s.early + {ch})
  }

  /** The key is in flight: callers attach themselves instead of enqueueing. */
  predicate InFlight(s: State, key: Key) {
    key in s.active || Waiters(s.wait, key) != []
  }

  /** take plus the removal from `active`; the worker now holds the waiters. */
  function Taken(s: State, t: Tid, key: Key): State {
    s.(wait := s.wait - {key}, active := s.active - {key},
       place := map ch | ch in s.place :: if s.place[ch] == Waiting(key) then Held(t) else s.place[ch])
  }

  /** A caller whose context ended takes its channel out of the wait list, if it is still there. */
  function Dropped(s: State, key: Key, ch: Chan): State {
    s.(wait := Removed(s.wait, key, ch),
       place := if ch in s.place && s.place[ch] == Waiting(key) then s.place[ch := Abandoned] else s.place)
  }

  /** Stop's critical section: every waiter is answered, every queued task dropped. */
  function AllStopped(s: State): State {
    var all := AllWaiters(s);
    s.(stopped := true, pending := map[], wait := map[],
       sent := s.sent + map ch | ch in all :: Outcome.Stopped,
       place := map ch | ch in s.place :: if ch in all then Answered else s.place[ch])
  }

  function AllWaiters(s: State): set<Chan> {
    set ch | ch in s.place && s.place[ch].Waiting?
  }

  predicate Enabled(s: State, t: Tid, a: Action) {
    t in s.threads &&
    var pc := s.threads[t];
    match a
    case Enqueue(_) => pc.Outside?
    case Signal => pc.Announcing? || (pc.Enqueued? && pc.signals > 0) || pc.PoppedMore? || pc.Stepped?
    case Ensure(_) => pc.Outside?
    case Join(ch) => pc.Joining? && ch !in s.place
    case CacheSettles => pc.Checking?
    case Register(ch, task) => pc.Checking? && ch !in s.place && task.key == pc.key
    case GiveUp => pc.Awaiting?
    case Receive => pc.Awaiting? && pc.ch in s.sent
    case Wake => pc.Idle? && s.token
    case Exit => pc.Idle? && s.stopped
    case Pop(key) =>
      pc.Popping? &&
      if s.pending == map[] then true
      else key in s.pending && forall k :: k in s.pending ==> !Better(s.pending[k], s.pending[key])
    case Finish(_) => pc.Fetching?
    case FetchOk(_) => pc.Fetching?
    case Notify => pc.Notifying? && (pc.waiters != [] ==> pc.waiters[0] !in s.sent)  // a full buffer would block
    case Stop => pc.Outside? && !s.stopped
  }

  /** One atomic step of thread `t`: what it does to the shared state, and where it goes. */
  function Move(s: State, t: Tid, a: Action): Moved
    requires Enabled(s, t, a)
  {
    var pc := s.threads[t];
    match a
    case Enqueue(tasks) =>
      if s.stopped then Moved(s, pc)
      else
        var (pending, n) := EnqueueAll(s.pending, s.active, tasks);
        Moved(s.(pending := pending), if n > 0 then Enqueued(n) else Outside)
    case Signal => Moved(s.(token := true), AfterSignal(pc))
    case Ensure(key) => Moved(s, if s.stopped then pc else Joining(key))
    case Join(ch) =>
      if InFlight(s, pc.key) then Moved(Registered(s, pc.key, ch), Awaiting(pc.key, ch))
      else Moved(s, Checking(pc.key))
    case CacheSettles => Moved(s, Outside)
    case Register(ch, task) =>
      if s.stopped then Moved(s, Outside)
      else if InFlight(s, pc.key) then Moved(Registered(s, pc.key, ch), Awaiting(pc.key, ch))
      else if Accepts(s.pending, s.active, task) then
        Moved(Registered(s, pc.key, ch).(pending := s.pending[pc.key := task]), Announcing(pc.key, ch))
      else Moved(Registered(s, pc.key, ch), Awaiting(pc.key, ch))
    case GiveUp => Moved(Dropped(s, pc.key, pc.ch), Outside)
    case Receive => Moved(s, Outside)
    case Wake => Moved(s.(token := false), Popping)
    case Exit => Moved(s, Exited)
    case Pop(key) =>
      if s.pending == map[] then Moved(s, Idle)
      else if key in s.active then Moved(s.(pending := s.pending - {key}), Stepped)
      else
        var pending := s.pending - {key};
        Moved(s.(pending := pending, active := s.active + {key}),
          if pending != map[] then PoppedMore(key) else Fetching(key))
    case Finish(outcome) => Moved(Taken(s, t, pc.key), Notifying(Waiters(s.wait, pc.key), outcome))
    case FetchOk(size) =>
      if s.stopped then Moved(s.(active := s.active - {pc.key}), Stepped)
      else Moved(Taken(s, t, pc.key), Notifying(Waiters(s.wait, pc.key), Hydrated(size)))
    case Notify =>
      if pc.waiters == [] then Moved(s, Stepped)
      else
        var ch := pc.waiters[0];
        Moved(s.(sent := s.sent[ch := pc.outcome], place := s.place[ch := Answered]),
            Notifying(pc.waiters[1..], pc.outcome))
    case Stop => Moved(AllStopped(s), pc)
  }

  function Next(s: State, t: Tid, a: Action): State
    requires Enabled(s, t, a)
  {
    var moved := Move(s, t, a);
    moved.s.(threads := s.threads[t := moved.pc])
  }

  /** Where a signalling thread goes once it has sent. */
  function AfterSignal(pc: Pc): Pc {
    match pc
    case Announcing(key, ch) => Awaiting(key, ch)
    case Enqueued(n) => if n > 1 then Enqueued(n - 1) else Outside
    case PoppedMore(key) => Fetching(key)
    case _ => Popping
  }

  // ---------- Invariants ----------

  /** Queued keys are not active, and each active key has exactly one worker. */
  ghost predicate SingleFlight(s: State) {
    && s.pending.Keys !! s.active
    && (forall k :: k in s.pending ==> s.pending[k].key == k)
    && (forall t :: t in s.threads && Works(s.threads[t]) ==> s.threads[t].key in s.active)
    && (forall t, u :: t in s.threads && u in s.threads && t != u && Works(s.threads[t]) && Works(s.threads[u]) ==>
          s.threads[t].key != s.threads[u].key)
    && (forall k :: k in s.active ==> exists t :: t in s.threads && Works(s.threads[t]) && s.threads[t].key == k)
  }

  predicate Works(pc: Pc) {
    pc.PoppedMore? || pc.Fetching?
  }

  /** Every registered channel has one place: wait lists hold exactly the channels placed in them ... */
  ghost predicate WaitPlaced(s: State) {
    && (forall k, ch :: ch in Waiters(s.wait, k) <==> PlacedAt(s, ch, Waiting(k)))
    && (forall k :: k in s.wait ==> s.wait[k] != [] && NoRepeats(s.wait[k]))
  }

  predicate PlacedAt(s: State, ch: Chan, place: Place) {
    ch in s.place && s.place[ch] == place
  }

  predicate IsNotifying(s: State, t: Tid) {
    t in s.threads && s.threads[t].Notifying?
  }

  /** ... a notifying worker holds exactly those placed in its hands ... */
  ghost predicate HeldPlaced(s: State) {
    && (forall t, ch :: IsNotifying(s, t) ==> (ch in s.threads[t].waiters <==> PlacedAt(s, ch, Held(t))))
    && (forall t :: IsNotifying(s, t) ==> NoRepeats(s.threads[t].waiters))
    && (forall ch :: ch in s.place && s.place[ch].Held? ==> IsNotifying(s, s.place[ch].worker))
  }

  /** ... and exactly the answered ones have been sent to. */
  ghost predicate SentPlaced(s: State) {
    forall ch :: ch in s.sent <==> PlacedAt(s, ch, Answered)
  }

  ghost predicate Placed(s: State) {
    WaitPlaced(s) && HeldPlaced(s) && SentPlaced(s)
  }

  /** Before Stop a key with waiters is queued or being fetched. */
  ghost predicate NoneForgotten(s: State) {
    !s.stopped ==> forall k :: k in s.wait ==> k in s.pending || k in s.active
  }

  /** After Stop no channel registered before it is still waiting. */
  ghost predicate StopAnswers(s: State) {
    && s.early <= s.place.Keys
    && (s.stopped ==> forall ch :: ch in s.early ==> !s.place[ch].Waiting?)
    && (!s.stopped ==> s.early == s.place.Keys)
  }

  predicate AboutToSignal(pc: Pc) {
    pc.Announcing? || (pc.Enqueued? && pc.signals > 0) || pc.PoppedMore? || pc.Stepped?
  }

  predicate WillPop(pc: Pc) {
    AboutToSignal(pc) || pc.Popping?
  }

  /** A token, a thread about to send one, or a worker about to pop. */
  ghost predicate SomeoneWillPop(s: State) {
    s.token || exists t :: t in s.threads && WillPop(s.threads[t])
  }

  ghost predicate NoLostWakeup(s: State) {
    !s.stopped && s.pending != map[] ==> SomeoneWillPop(s)
  }

  ghost predicate Inv(s: State) {
    SingleFlight(s) && Placed(s) && NoneForgotten(s) && StopAnswers(s) && NoLostWakeup(s)
  }

  predicate Init(s: State) {
    && s.pending == map[] && s.active == {} && s.wait == map[] && !s.stopped && !s.token
    && s.sent == map[] && s.place == map[] && s.early == {}
    && forall t :: t in s.threads ==> s.threads[t] in {Outside, Idle}
  }

  lemma InitHolds(s: State)
    requires Init(s)
    ensures Inv(s)
  {
  }

  // ---------- Each invariant is kept by every step ----------

  lemma {:induction false} EnqueueAllSpec(pending: map<Key, Task>, active: set<Key>, tasks: seq<Task>)
    requires pending.Keys !! active && forall k :: k in pending ==> pending[k].key == k
    ensures var (after, n) := EnqueueAll(pending, active, tasks);
            && pending.Keys <= after.Keys && after.Keys !! active
            && (forall k :: k in after ==> after[k].key == k)
            && (n == 0 ==> after == pending)
    decreases |tasks|
  {
    if tasks != [] {
      var accepted := Accepts(pending, active, tasks[0]);
      EnqueueAllSpec(if accepted then pending[tasks[0].key := tasks[0]] else pending, active, tasks[1..]);
    }
  }

  /** When its turn comes the entry is new, or outranks all there is of its key. */
  predicate Rises(pending: map<Key, Task>, active: set<Key>, tasks: seq<Task>, i: nat)
    requires i < |tasks|
  {
    && tasks[i].key !in active
    && (tasks[i].key in pending ==> tasks[i].priority > pending[tasks[i].key].priority)
    && forall j :: 0 <= j < i && tasks[j].key == tasks[i].key ==> tasks[i].priority > tasks[j].priority
  }

  function Rising(pending: map<Key, Task>, active: set<Key>, tasks: seq<Task>): set<nat> {
    set i: nat | i < |tasks| && Rises(pending, active, tasks, i)
  }

  /**
   * What a batch makes of the queue, entry by entry: every task queued before or risen is there
   * in its highest rank, nothing else is.
   */
  ghost predicate Batched(pending: map<Key, Task>, active: set<Key>, tasks: seq<Task>, after: map<Key, Task>) {
    && (forall key :: key in pending ==> key in after && after[key].priority >= pending[key].priority)
    && (forall i :: 0 <= i < |tasks| ==>
          tasks[i].key in active || (tasks[i].key in after && after[tasks[i].key].priority >= tasks[i].priority))
    && (forall key :: key in after ==> ComesFrom(pending, active, tasks, key, after[key]))
  }

  ghost predicate ComesFrom(pending: map<Key, Task>, active: set<Key>, tasks: seq<Task>, key: Key, task: Task) {
    || (key in pending && task == pending[key])
    || (exists i :: 0 <= i < |tasks| && Rises(pending, active, tasks, i) && task == tasks[i])
  }

  /** The queue after the first entry of a batch. */
  function FirstDone(pending: map<Key, Task>, active: set<Key>, tasks: seq<Task>): map<Key, Task>
    requires tasks != []
  {
    if Accepts(pending, active, tasks[0]) then pending[tasks[0].key := tasks[0]] else pending
  }

  /** The first entry, then the rest: who rises afterwards rose in the whole batch. */
  lemma RisesInTheRest(pending: map<Key, Task>, active: set<Key>, tasks: seq<Task>, i: nat)
    requires 0 < i < |tasks|
    ensures Rises(FirstDone(pending, active, tasks), active, tasks[1..], i - 1) <==> Rises(pending, active, tasks, i)
  {
    var first := FirstDone(pending, active, tasks);
    if Rises(pending, active, tasks, i) {
      forall j | 0 <= j < i - 1 && tasks[1..][j].key == tasks[i].key
        ensures tasks[i].priority > tasks[1..][j].priority
      {
        assert tasks[1..][j] == tasks[j + 1];
      }
    }
    if Rises(first, active, tasks[1..], i - 1) {
      forall j | 0 <= j < i && tasks[j].key == tasks[i].key
        ensures tasks[i].priority > tasks[j].priority
      {
        if j > 0 { assert tasks[1..][j - 1] == tasks[j]; }
      }
    }
  }

  function Shifted(s: set<nat>): set<nat> {
    set i | i in s :: i + 1
  }

  lemma ShiftedAre(s: set<nat>, i: nat)
    ensures i in Shifted(s) <==> i > 0 && i - 1 in s
  {
  }

  lemma {:induction false} ShiftedSize(s: set<nat>)
    ensures |Shifted(s)| == |s|
    decreases s
  {
    if s != {} {
      var x :| x in s;
      ShiftedSize(s - {x});
      forall i: nat ensures i in Shifted(s) <==> i in Shifted(s - {x}) + {x + 1} {
        ShiftedAre(s, i);
        ShiftedAre(s - {x}, i);
      }
      ShiftedAre(s - {x}, x + 1);
      assert Shifted(s) == Shifted(s - {x}) + {x + 1};
    }
  }

  lemma RisingAre(pending: map<Key, Task>, active: set<Key>, tasks: seq<Task>, i: nat)
    requires tasks != []
    ensures i in Rising(pending, active, tasks) <==>
              if i == 0 then Accepts(pending, active, tasks[0])
              else i in Shifted(Rising(FirstDone(pending, active, tasks), active, tasks[1..]))
  {
    ShiftedAre(Rising(FirstDone(pending, active, tasks), active, tasks[1..]), i);
    if 0 < i < |tasks| { RisesInTheRest(pending, active, tasks, i); }
  }

  lemma RisingIsFirstAndRest(pending: map<Key, Task>, active: set<Key>, tasks: seq<Task>)
    requires tasks != []
    ensures |Rising(pending, active, tasks)| ==
            |Rising(FirstDone(pending, active, tasks), active, tasks[1..])| +
            if Accepts(pending, active, tasks[0]) then 1 else 0
  {
    var rest := Rising(FirstDone(pending, active, tasks), active, tasks[1..]);
    var zero: set<nat> := if Accepts(pending, active, tasks[0]) then {0} else {};
    ShiftedSize(rest);
    ShiftedAre(rest, 0);
    forall i: nat ensures i in Rising(pending, active, tasks) <==> i in Shifted(rest) + zero {
      RisingAre(pending, active, tasks, i);
    }
    assert Rising(pending, active, tasks) == Shifted(rest) + zero;
  }

  /** Enqueueing a batch does that, with one signal due for each entry that rises. */
  lemma {:induction false} EnqueueAllBatches(pending: map<Key, Task>, active: set<Key>, tasks: seq<Task>)
    requires forall k :: k in pending ==> pending[k].key == k
    ensures var (after, n) := EnqueueAll(pending, active, tasks);
            Batched(pending, active, tasks, after) && n == |Rising(pending, active, tasks)|
    decreases |tasks|
  {
    if tasks == [] {
      assert Rising(pending, active, tasks) == {};
    } else {
      var first := FirstDone(pending, active, tasks);
      EnqueueAllBatches(first, active, tasks[1..]);
      RisingIsFirstAndRest(pending, active, tasks);
      BatchedOneMore(pending, active, tasks, EnqueueAll(first, active, tasks[1..]).0);
    }
  }

  lemma BatchedOneMore(pending: map<Key, Task>, active: set<Key>, tasks: seq<Task>, after: map<Key, Task>)
    requires tasks != [] && forall k :: k in pending ==> pending[k].key == k
    requires Batched(FirstDone(pending, active, tasks), active, tasks[1..], after)
    ensures Batched(pending, active, tasks, after)
  {
    var first := FirstDone(pending, active, tasks);
    forall i | 0 <= i < |tasks|
      ensures tasks[i].key in active || (tasks[i].key in after && after[tasks[i].key].priority >= tasks[i].priority)
    {
      if i > 0 { assert tasks[1..][i - 1] == tasks[i]; }
    }
    forall key | key in after
      ensures ComesFrom(pending, active, tasks, key, after[key])
    {
      ComesFromFirstOrRest(pending, active, tasks, key, after[key]);
    }
  }

  lemma ComesFromFirstOrRest(pending: map<Key, Task>, active: set<Key>, tasks: seq<Task>, key: Key, task: Task)
    requires tasks != []
    requires ComesFrom(FirstDone(pending, active, tasks), active, tasks[1..], key, task)
    ensures ComesFrom(pending, active, tasks, key, task)
  {
    var first := FirstDone(pending, active, tasks);
    if key in first && task == first[key] {
      assert Accepts(pending, active, tasks[0]) ==> Rises(pending, active, tasks, 0);
    } else {
      var i :| 0 <= i < |tasks[1..]| && Rises(first, active, tasks[1..], i) && task == tasks[1..][i];
      RisesInTheRest(pending, active, tasks, i + 1);
      assert Rises(pending, active, tasks, i + 1) && task == tasks[i + 1];
    }
  }

  ghost predicate PendingKeyed(s: State) {
    s.pending.Keys !! s.active && forall k :: k in s.pending ==> s.pending[k].key == k
  }

  /** The key a thread works on, if any. */
  function WorkOf(pc: Pc): set<Key> {
    if Works(pc) then {pc.key} else {}
  }

  /** A step of `t` that adds or removes its own work from `active` keeps one worker per active key. */
  lemma SingleFlightStep(s: State, s': State, t: Tid)
    requires SingleFlight(s) && PendingKeyed(s') && t in s.threads
    requires s'.threads.Keys == s.threads.Keys
    requires forall u :: u in s.threads && u != t ==> s'.threads[u] == s.threads[u]
    requires WorkOf(s'.threads[t]) !! (s.active - WorkOf(s.threads[t]))
    requires s'.active == s.active - WorkOf(s.threads[t]) + WorkOf(s'.threads[t])
    ensures SingleFlight(s')
  {
    forall k | k in s'.active ensures exists u :: u in s'.threads && Works(s'.threads[u]) && s'.threads[u].key == k {
      if k in WorkOf(s'.threads[t]) {
        assert t in s'.threads && Works(s'.threads[t]);
      } else {
        var u :| u in s.threads && Works(s.threads[u]) && s.threads[u].key == k;
        assert u != t && u in s'.threads;
      }
    }
  }

  lemma OthersKeepPendingKeyed(s: State, t: Tid, a: Action)
    requires PendingKeyed(s) && Enabled(s, t, a) && !a.Enqueue?
    ensures PendingKeyed(Move(s, t, a).s)
  {
  }

  lemma StepKeepsPendingKeyed(s: State, t: Tid, a: Action)
    requires Inv(s) && Enabled(s, t, a)
    ensures PendingKeyed(Move(s, t, a).s)
  {
    if a.Enqueue? { EnqueueAllSpec(s.pending, s.active, a.tasks); } else { OthersKeepPendingKeyed(s, t, a); }
  }

  /** The steps that start, carry on or end a fetch. */
  predicate TouchesWork(a: Action) {
    a.Signal? || a.Pop? || a.Finish? || a.FetchOk?
  }

  lemma IdleStepLeavesWork(s: State, t: Tid, a: Action)
    requires Enabled(s, t, a) && !TouchesWork(a)
    ensures Move(s, t, a).s.active == s.active
    ensures !Works(s.threads[t]) && !Works(Move(s, t, a).pc)
  {
  }

  lemma WorkStepMovesOwnWork(s: State, t: Tid, a: Action)
    requires Enabled(s, t, a) && TouchesWork(a) && s.pending.Keys !! s.active
    requires Works(s.threads[t]) ==> s.threads[t].key in s.active
    ensures var m := Move(s, t, a);
            && WorkOf(m.pc) !! (s.active - WorkOf(s.threads[t]))
            && m.s.active == s.active - WorkOf(s.threads[t]) + WorkOf(m.pc)
  {
  }

  lemma KeepsSingleFlight(s: State, t: Tid, a: Action)
    requires Inv(s) && Enabled(s, t, a)
    ensures SingleFlight(Next(s, t, a))
  {
    StepKeepsPendingKeyed(s, t, a);
    if TouchesWork(a) { WorkStepMovesOwnWork(s, t, a); } else { IdleStepLeavesWork(s, t, a); }
    SingleFlightStep(s, Next(s, t, a), t);
  }

  /** A step after which neither token nor thread would do it neither took the token nor ended such a thread. */
  lemma QuietEndsQuiet(s: State, t: Tid, a: Action)
    requires PendingKeyed(s) && Enabled(s, t, a)
    requires var m := Move(s, t, a); !m.s.stopped && m.s.pending != map[] && !m.s.token && !WillPop(m.pc)
    ensures !s.stopped && s.pending != map[] && !s.token && !WillPop(s.threads[t])
  {
    if a.Enqueue? { EnqueueAllSpec(s.pending, s.active, a.tasks); }
  }

  lemma KeepsNoLostWakeup(s: State, t: Tid, a: Action)
    requires Inv(s) && Enabled(s, t, a)
    ensures NoLostWakeup(Next(s, t, a))
  {
    var m, s' := Move(s, t, a), Next(s, t, a);
    assert s'.threads[t] == m.pc;
    if !s'.stopped && s'.pending != map[] && !s'.token && !WillPop(m.pc) {
      QuietEndsQuiet(s, t, a);
      var u :| u in s.threads && WillPop(s.threads[u]);
      assert u in s'.threads && s'.threads[u] == s.threads[u];
    }
  }

  /** Steps that register, move or answer a channel; the others leave all lists and places alone. */
  predicate TouchesChannels(a: Action) {
    a.Join? || a.Register? || a.GiveUp? || a.Finish? || a.FetchOk? || a.Notify? || a.Stop?
  }

  /** Neither the thread that moved nor the shared lists have anything to do with held channels. */
  lemma HeldFrame(s: State, s': State, t: Tid, pc: Pc)
    requires HeldPlaced(s) && t in s.threads && !s.threads[t].Notifying? && !pc.Notifying?
    requires s'.threads == s.threads[t := pc]
    requires forall ch, u :: PlacedAt(s', ch, Held(u)) <==> PlacedAt(s, ch, Held(u))
    ensures HeldPlaced(s')
  {
    forall u ensures IsNotifying(s', u) <==> IsNotifying(s, u) {}
    forall ch | ch in s'.place && s'.place[ch].Held? ensures IsNotifying(s', s'.place[ch].worker) {
      assert PlacedAt(s', ch, Held(s'.place[ch].worker));
    }
  }

  lemma QuietStepIsQuiet(s: State, t: Tid, a: Action)
    requires Enabled(s, t, a) && !TouchesChannels(a)
    ensures var m := Move(s, t, a);
            m.s.wait == s.wait && m.s.place == s.place && m.s.sent == s.sent && !s.threads[t].Notifying?
                && !m.pc.Notifying?
  {
  }

  lemma QuietStepKeepsPlaced(s: State, t: Tid, a: Action)
    requires Placed(s) && Enabled(s, t, a) && !TouchesChannels(a)
    ensures Placed(Next(s, t, a))
  {
    QuietStepIsQuiet(s, t, a);
    QuietFrame(s, Next(s, t, a), t, Move(s, t, a).pc);
  }

  lemma QuietFrame(s: State, s': State, t: Tid, pc: Pc)
    requires Placed(s) && t in s.threads && !s.threads[t].Notifying? && !pc.Notifying?
    requires s'.threads == s.threads[t := pc] && s'.wait == s.wait && s'.place == s.place && s'.sent == s.sent
    ensures Placed(s')
  {
  }

  lemma RegisteringKeepsPlaced(s: State, s': State, t: Tid, key: Key, ch: Chan, pc: Pc)
    requires Placed(s) && t in s.threads && !s.threads[t].Notifying? && !pc.Notifying? && ch !in s.place
    requires var r := Registered(s, key, ch); s'.wait == r.wait && s'.place == r.place && s'.sent == s.sent
    requires s'.threads == s.threads[t := pc]
    ensures Placed(s')
  {
    assert !PlacedAt(s, ch, Waiting(key));
    forall c, place
      ensures PlacedAt(s', c, place) <==> if c == ch then place == Waiting(key) else PlacedAt(s, c, place)
    {}
    forall k, c ensures c in Waiters(s'.wait, k) <==> PlacedAt(s', c, Waiting(k)) {
      if k == key { assert s'.wait[k] == Waiters(s.wait, key) + [ch]; }
      else { assert Waiters(s'.wait, k) == Waiters(s.wait, k); }
    }
    HeldFrame(s, s', t, pc);
  }

  lemma GivingUpKeepsPlaced(s: State, s': State, t: Tid, key: Key, ch: Chan, pc: Pc)
    requires Placed(s) && t in s.threads && !s.threads[t].Notifying? && !pc.Notifying?
    requires s' == Dropped(s, key, ch).(threads := s.threads[t := pc])
    ensures Placed(s')
  {
    forall c, place | place != Abandoned
      ensures PlacedAt(s', c, place) <==> PlacedAt(s, c, place) && !(c == ch && place == Waiting(key))
    {
    }
    if key in s.wait { WithoutSpec(s.wait[key], ch); }
    forall k, c ensures c in Waiters(s'.wait, k) <==> c in Waiters(s.wait, k) && !(k == key && c == ch) {}
    HeldFrame(s, s', t, pc);
  }

  lemma TakingKeepsPlaced(s: State, s': State, t: Tid, key: Key, outcome: Outcome)
    requires Placed(s) && t in s.threads && !s.threads[t].Notifying?
    requires s' == Taken(s, t, key).(threads := s.threads[t := Notifying(Waiters(s.wait, key), outcome)])
    ensures Placed(s')
  {
    forall c ensures !PlacedAt(s, c, Held(t)) {
      assert PlacedAt(s, c, Held(t)) ==> IsNotifying(s, t);
    }
    forall c, place
      ensures PlacedAt(s', c, place) <==>
                if place == Held(t) then PlacedAt(s, c, Waiting(key))
                else PlacedAt(s, c, place) && place != Waiting(key)
    {
    }
    forall k, c ensures c in Waiters(s'.wait, k) <==> c in Waiters(s.wait, k) && k != key {}
    assert forall u :: u != t ==> (IsNotifying(s', u) <==> IsNotifying(s, u));
    assert key in s.wait ==> NoRepeats(s.wait[key]);
  }

  lemma TailNoRepeats(ch: Chan, rest: seq<Chan>)
    requires NoRepeats([ch] + rest)
    ensures ch !in rest && NoRepeats(rest)
  {
    var all := [ch] + rest;
    assert forall i :: 0 <= i < |rest| ==> all[i + 1] == rest[i];
    assert all[0] == ch;
  }

  lemma NotifyKeepsPlaced(s: State, s': State, t: Tid, ch: Chan, rest: seq<Chan>, outcome: Outcome)
    requires Placed(s) && IsNotifying(s, t) && s.threads[t].waiters == [ch] + rest
    requires s' == s.(sent := s.sent[ch := outcome], place := s.place[ch := Answered],
                      threads := s.threads[t := Notifying(rest, outcome)])
    ensures Placed(s')
  {
    assert PlacedAt(s, ch, Held(t)) by { assert ch in s.threads[t].waiters; }
    TailNoRepeats(ch, rest);
    forall c, place ensures PlacedAt(s', c, place) <==> if c == ch then place == Answered else PlacedAt(s, c, place) {}
    forall c ensures c in s.threads[t].waiters <==> c == ch || c in rest {}
    assert forall u :: IsNotifying(s', u) <==> IsNotifying(s, u);
  }

  lemma NotifiedKeepsPlaced(s: State, s': State, t: Tid)
    requires Placed(s) && IsNotifying(s, t) && s.threads[t].waiters == []
    requires s' == s.(threads := s.threads[t := Stepped])
    ensures Placed(s')
  {
    forall c ensures !PlacedAt(s, c, Held(t)) { assert c !in s.threads[t].waiters; }
    forall ch | ch in s'.place && s'.place[ch].Held? ensures IsNotifying(s', s'.place[ch].worker) {
      assert PlacedAt(s, ch, Held(s.place[ch].worker));
    }
  }

  lemma StopKeepsPlaced(s: State, s': State)
    requires Placed(s) && s' == AllStopped(s)
    ensures Placed(s')
  {
  }

  lemma CallerKeepsPlaced(s: State, t: Tid, a: Action)
    requires Placed(s) && Enabled(s, t, a) && (a.Join? || a.Register? || a.GiveUp?)
    ensures Placed(Next(s, t, a))
  {
    var pc, m, s' := s.threads[t], Move(s, t, a), Next(s, t, a);
    match a
    case Join(ch) =>
      if InFlight(s, pc.key) {
        RegisteringKeepsPlaced(s, s', t, pc.key, ch, m.pc);
      } else {
        QuietFrame(s, s', t, m.pc);
      }
    case Register(ch, _) =>
      if s.stopped { QuietFrame(s, s', t, m.pc); } else { RegisteringKeepsPlaced(s, s', t, pc.key, ch, m.pc); }
    case GiveUp => GivingUpKeepsPlaced(s, s', t, pc.key, pc.ch, m.pc);
  }

  lemma FinishKeepsPlaced(s: State, t: Tid, a: Action)
    requires Placed(s) && Enabled(s, t, a) && (a.Finish? || a.FetchOk?)
    ensures Placed(Next(s, t, a))
  {
    var pc, m, s' := s.threads[t], Move(s, t, a), Next(s, t, a);
    match a
    case Finish(outcome) => TakingKeepsPlaced(s, s', t, pc.key, outcome);
    case FetchOk(size) =>
      if s.stopped { QuietFrame(s, s', t, m.pc); } else { TakingKeepsPlaced(s, s', t, pc.key, Hydrated(size)); }
  }

  lemma NotifyStepKeepsPlaced(s: State, t: Tid)
    requires Placed(s) && Enabled(s, t, Notify)
    ensures Placed(Next(s, t, Notify))
  {
    var chs, s' := s.threads[t].waiters, Next(s, t, Notify);
    if chs == [] { NotifiedKeepsPlaced(s, s', t); }
    else {
      assert chs == [chs[0]] + chs[1..];
      NotifyMoves(s, t);
      NotifyKeepsPlaced(s, s', t, chs[0], chs[1..], s.threads[t].outcome);
    }
  }

  lemma KeepsPlaced(s: State, t: Tid, a: Action)
    requires Placed(s) && Enabled(s, t, a)
    ensures Placed(Next(s, t, a))
  {
    if a.Join? || a.Register? || a.GiveUp? { CallerKeepsPlaced(s, t, a); }
    else if a.Finish? || a.FetchOk? { FinishKeepsPlaced(s, t, a); }
    else if a.Notify? { NotifyStepKeepsPlaced(s, t); }
    else if a.Stop? {
      assert Next(s, t, a) == AllStopped(s);
      StopKeepsPlaced(s, Next(s, t, a));
    } else { QuietStepKeepsPlaced(s, t, a); }
  }

  /** A step that leaves some key neither queued nor active leaves no waiters behind for it either. */
  lemma FinishingForgetsNone(s: State, t: Tid, a: Action)
    requires SingleFlight(s) && NoneForgotten(s) && Enabled(s, t, a) && (a.Finish? || a.FetchOk? || a.Pop? || a.GiveUp?)
    ensures NoneForgotten(Move(s, t, a).s)
  {
  }

  lemma WaitingForgetsNone(s: State, t: Tid, a: Action)
    requires NoneForgotten(s) && Enabled(s, t, a) && !(a.Finish? || a.FetchOk? || a.Pop? || a.GiveUp?)
    requires PendingKeyed(s)
    ensures NoneForgotten(Move(s, t, a).s)
  {
    if a.Enqueue? { EnqueueAllSpec(s.pending, s.active, a.tasks); }
  }

  lemma KeepsNoneForgotten(s: State, t: Tid, a: Action)
    requires Inv(s) && Enabled(s, t, a)
    ensures NoneForgotten(Next(s, t, a))
  {
    if a.Finish? || a.FetchOk? || a.Pop? || a.GiveUp? {
      FinishingForgetsNone(s, t, a);
    } else {
      WaitingForgetsNone(s, t, a);
    }
  }

  /** Registered channels keep an entry in `place`, and only registration makes one Waiting. */
  ghost predicate PlacesKept(s: State, m: State) {
    && s.place.Keys <= m.place.Keys
    && (forall ch :: ch in s.place && m.place[ch].Waiting? ==> s.place[ch].Waiting?)
    && (!m.stopped && s.early == s.place.Keys ==> m.early == m.place.Keys)
    && (s.stopped ==> m.stopped && m.early == s.early)
  }

  /** What a notifying worker's step does. */
  lemma NotifyMoves(s: State, t: Tid)
    requires IsNotifying(s, t) && s.threads[t].waiters != [] && Enabled(s, t, Notify)
    ensures var chs, outcome := s.threads[t].waiters, s.threads[t].outcome;
            Next(s, t, Notify) == s.(sent := s.sent[chs[0] := outcome], place := s.place[chs[0] := Answered],
                                     threads := s.threads[t := Notifying(chs[1..], outcome)])
  {
  }

  lemma NotifyKeepsPlaces(s: State, t: Tid)
    requires HeldPlaced(s) && Enabled(s, t, Notify)
    ensures PlacesKept(s, Move(s, t, Notify).s)
  {
    if s.threads[t].waiters != [] {
      var ch := s.threads[t].waiters[0];
      assert IsNotifying(s, t) && ch in s.threads[t].waiters;
      assert PlacedAt(s, ch, Held(t));
      assert s.place[ch := Answered].Keys == s.place.Keys;
    }
  }

  lemma QuietStepKeepsPlaces(s: State, t: Tid, a: Action)
    requires Enabled(s, t, a) && !TouchesChannels(a)
    ensures PlacesKept(s, Move(s, t, a).s)
  {
    var m := Move(s, t, a).s;
    assert m.place == s.place && m.early == s.early && m.stopped == s.stopped;
  }

  lemma RegisteringKeepsPlaces(s: State, key: Key, ch: Chan)
    requires ch !in s.place
    ensures PlacesKept(s, Registered(s, key, ch))
  {
  }

  lemma DroppingKeepsPlaces(s: State, key: Key, ch: Chan)
    ensures PlacesKept(s, Dropped(s, key, ch))
  {
  }

  lemma CallerKeepsPlaces(s: State, t: Tid, a: Action)
    requires Enabled(s, t, a) && (a.Join? || a.Register? || a.GiveUp?)
    ensures PlacesKept(s, Move(s, t, a).s)
  {
    var pc := s.threads[t];
    match a
    case Join(ch) => RegisteringKeepsPlaces(s, pc.key, ch);
    case Register(ch, _) => RegisteringKeepsPlaces(s, pc.key, ch);
    case GiveUp => DroppingKeepsPlaces(s, pc.key, pc.ch);
  }

  lemma TakeKeepsPlaces(s: State, t: Tid, a: Action)
    requires Enabled(s, t, a) && (a.Finish? || a.FetchOk? || a.Stop?)
    ensures PlacesKept(s, Move(s, t, a).s)
  {
  }

  lemma StepKeepsPlaces(s: State, t: Tid, a: Action)
    requires HeldPlaced(s) && Enabled(s, t, a)
    ensures PlacesKept(s, Move(s, t, a).s)
  {
    if a.Notify? { NotifyKeepsPlaces(s, t); }
    else if a.Join? || a.Register? || a.GiveUp? { CallerKeepsPlaces(s, t, a); }
    else if a.Finish? || a.FetchOk? || a.Stop? { TakeKeepsPlaces(s, t, a); }
    else { QuietStepKeepsPlaces(s, t, a); }
  }

  lemma OnlyStopStops(s: State, t: Tid, a: Action)
    requires Enabled(s, t, a)
    ensures Move(s, t, a).s.stopped <==> s.stopped || a.Stop?
  {
  }

  lemma KeepsStopAnswers(s: State, t: Tid, a: Action)
    requires HeldPlaced(s) && StopAnswers(s) && Enabled(s, t, a)
    ensures StopAnswers(Next(s, t, a))
  {
    StepKeepsPlaces(s, t, a);
    OnlyStopStops(s, t, a);
  }

  lemma InvStep(s: State, t: Tid, a: Action)
    requires Inv(s) && Enabled(s, t, a)
    ensures Inv(Next(s, t, a))
  {
    KeepsSingleFlight(s, t, a);
    KeepsPlaced(s, t, a);
    KeepsNoneForgotten(s, t, a);
    KeepsStopAnswers(s, t, a);
    KeepsNoLostWakeup(s, t, a);
  }

  // ---------- Runs ----------

  datatype Event = Event(t: Tid, a: Action)

  ghost predicate Runs(s: State, events: seq<Event>)
    decreases |events|
  {
    events == [] ||
    (Enabled(s, events[0].t, events[0].a) && Runs(Next(s, events[0].t, events[0].a), events[1..]))
  }

  ghost function After(s: State, events: seq<Event>): State
    requires Runs(s, events)
    decreases |events|
  {
    if events == [] then s else After(Next(s, events[0].t, events[0].a), events[1..])
  }

  /** Every interleaving keeps all the invariants. */
  lemma {:induction false} InvOverRuns(s: State, events: seq<Event>)
    requires Inv(s) && Runs(s, events)
    ensures Inv(After(s, events))
    decreases |events|
  {
    if events != [] {
      InvStep(s, events[0].t, events[0].a);
      InvOverRuns(Next(s, events[0].t, events[0].a), events[1..]);
    }
  }

  /** What a channel received is never overwritten, and a registered channel is never forgotten. */
  lemma StepSendsAtMostOnce(s: State, t: Tid, a: Action)
    requires Inv(s) && Enabled(s, t, a)
    ensures var s' := Next(s, t, a);
            forall ch :: ch in s.sent ==> ch in s'.sent && s'.sent[ch] == s.sent[ch]
  {
    if a.Stop? { StopSendsToWaiting(s); }
    else { OnlyNotifySends(s, t, a); }
  }

  lemma StopSendsToWaiting(s: State)
    requires SentPlaced(s)
    ensures forall ch :: ch in s.sent ==> ch in AllStopped(s).sent && AllStopped(s).sent[ch] == s.sent[ch]
  {
    assert forall ch :: ch in s.sent ==> PlacedAt(s, ch, Answered);
  }

  lemma OnlyNotifySends(s: State, t: Tid, a: Action)
    requires Enabled(s, t, a) && !a.Stop?
    ensures Move(s, t, a).s.sent == s.sent ||
            (a.Notify? && s.threads[t].waiters != [] && s.threads[t].waiters[0] !in s.sent &&
             Move(s, t, a).s.sent == s.sent[s.threads[t].waiters[0] := s.threads[t].outcome])
  {
  }

  lemma {:induction false} SentAtMostOnce(s: State, events: seq<Event>)
    requires Inv(s) && Runs(s, events)
    ensures forall ch :: ch in s.sent ==> ch in After(s, events).sent && After(s, events).sent[ch] == s.sent[ch]
    decreases |events|
  {
    if events != [] {
      InvStep(s, events[0].t, events[0].a);
      StepSendsAtMostOnce(s, events[0].t, events[0].a);
      SentAtMostOnce(Next(s, events[0].t, events[0].a), events[1..]);
    }
  }

  /** The send in notifyWaiters never blocks: the buffer of the next waiter is empty. */
  lemma NotifyNeverBlocks(s: State, t: Tid)
    requires Inv(s) && IsNotifying(s, t)
    ensures Enabled(s, t, Notify)
  {
    var chs := s.threads[t].waiters;
    if chs != [] { assert PlacedAt(s, chs[0], Held(t)); }
  }

  /** Finishing a key hands every waiter of that key, and no other, to the finishing worker. */
  lemma FinishTakesAllWaiters(s: State, t: Tid, outcome: Outcome)
    requires Inv(s) && Enabled(s, t, Finish(outcome))
    ensures var s', key := Next(s, t, Finish(outcome)), s.threads[t].key;
            && key !in s'.wait && key !in s'.active
            && s'.threads[t] == Notifying(Waiters(s.wait, key), outcome)
            && forall ch :: PlacedAt(s', ch, Held(t)) <==> PlacedAt(s, ch, Waiting(key))
  {
  }

  /** One Notify step answers the next waiter and keeps the others in hand. */
  lemma NotifyAnswersNext(s: State, t: Tid)
    requires Inv(s) && IsNotifying(s, t) && s.threads[t].waiters != []
    ensures Enabled(s, t, Notify) && Inv(Next(s, t, Notify))
    ensures var s', chs := Next(s, t, Notify), s.threads[t].waiters;
            && s'.threads.Keys == s.threads.Keys
            && s'.threads[t] == Notifying(chs[1..], s.threads[t].outcome)
            && chs[0] in s'.sent && s'.sent[chs[0]] == s.threads[t].outcome
  {
    NotifyNeverBlocks(s, t);
    NotifyMoves(s, t);
    InvStep(s, t, Notify);
  }

  lemma RunsFirst(s: State, e: Event, rest: seq<Event>)
    requires Enabled(s, e.t, e.a) && Runs(Next(s, e.t, e.a), rest)
    ensures Runs(s, [e] + rest) && After(s, [e] + rest) == After(Next(s, e.t, e.a), rest)
  {
  }

  /** The worker's own Notify steps then answer each of them with the outcome. */
  lemma {:induction false} NotifyingAnswersAll(s: State, t: Tid)
    requires Inv(s) && IsNotifying(s, t)
    ensures var events := seq(|s.threads[t].waiters|, _ => Event(t, Notify));
            && Runs(s, events)
            && forall ch :: ch in s.threads[t].waiters ==>
                 ch in After(s, events).sent && After(s, events).sent[ch] == s.threads[t].outcome
    decreases |s.threads[t].waiters|
  {
    var chs := s.threads[t].waiters;
    if chs != [] {
      NotifyAnswersNext(s, t);
      var s', rest := Next(s, t, Notify), seq(|chs| - 1, _ => Event(t, Notify));
      NotifyingAnswersAll(s', t);
      SentAtMostOnce(s', rest);
      RunsFirst(s, Event(t, Notify), rest);
      assert seq(|chs|, _ => Event(t, Notify)) == [Event(t, Notify)] + rest;
      forall ch | ch in chs
        ensures ch in After(s', rest).sent && After(s', rest).sent[ch] == s.threads[t].outcome
      {
        assert ch == chs[0] || ch in chs[1..];
      }
    }
  }

  /** A waiter leaves a worker's hands only by being sent the worker's outcome. */
  lemma HeldUntilAnswered(s: State, t: Tid, a: Action, u: Tid, ch: Chan)
    requires Inv(s) && Enabled(s, t, a) && PlacedAt(s, ch, Held(u))
    ensures var s' := Next(s, t, a);
            (PlacedAt(s', ch, Held(u)) && IsNotifying(s', u) && s'.threads[u].outcome == s.threads[u].outcome) ||
            (ch in s'.sent && s'.sent[ch] == s.threads[u].outcome)
  {
    assert IsNotifying(s, u) && ch in s.threads[u].waiters;
    if u == t {
      assert a.Notify?;
      NotifyMoves(s, t);
    } else {
      HeldElsewhere(s, t, a, u, ch);
    }
  }

  lemma HeldElsewhere(s: State, t: Tid, a: Action, u: Tid, ch: Chan)
    requires Inv(s) && Enabled(s, t, a) && PlacedAt(s, ch, Held(u)) && IsNotifying(s, u) && u != t
    ensures PlacedAt(Next(s, t, a), ch, Held(u)) && Next(s, t, a).threads[u] == s.threads[u]
  {
    if a.Notify? {
      HeldWhileOthersNotify(s, t, u, ch);
    } else if !TouchesChannels(a) {
      QuietStepIsQuiet(s, t, a);
    } else {
      HeldWhileOthersTake(s, t, a, u, ch);
    }
  }

  lemma HeldWhileOthersNotify(s: State, t: Tid, u: Tid, ch: Chan)
    requires Inv(s) && Enabled(s, t, Notify) && PlacedAt(s, ch, Held(u)) && u != t
    ensures PlacedAt(Next(s, t, Notify), ch, Held(u))
  {
    if s.threads[t].waiters != [] {
      NotifyMoves(s, t);
      assert IsNotifying(s, t) && s.threads[t].waiters[0] in s.threads[t].waiters;
      assert PlacedAt(s, s.threads[t].waiters[0], Held(t));
    }
  }

  lemma HeldWhileOthersTake(s: State, t: Tid, a: Action, u: Tid, ch: Chan)
    requires Enabled(s, t, a) && TouchesChannels(a) && !a.Notify? && PlacedAt(s, ch, Held(u))
    ensures PlacedAt(Next(s, t, a), ch, Held(u))
  {
  }

  /** No waiter is lost: before Stop each one's key is queued or in a worker's hands. */
  lemma NoWaiterLost(s: State, events: seq<Event>, ch: Chan)
    requires Init(s) && Runs(s, events) && ch in After(s, events).place
    ensures var s' := After(s, events);
            match s'.place[ch]
            case Waiting(key) => if s'.stopped then ch !in s'.early else key in s'.pending || key in s'.active
            case Held(u) => IsNotifying(s', u) && ch in s'.threads[u].waiters && ch !in s'.sent
            case Answered => ch in s'.sent
            case Abandoned => ch !in s'.sent
  {
    InitHolds(s);
    InvOverRuns(s, events);
    var s' := After(s, events);
    assert s'.place[ch].Waiting? ==> PlacedAt(s', ch, Waiting(s'.place[ch].key)) && s'.place[ch].key in s'.wait by {
      if s'.place[ch].Waiting? { assert ch in Waiters(s'.wait, s'.place[ch].key); }
    }
    if s'.place[ch].Held? { assert PlacedAt(s', ch, Held(s'.place[ch].worker)); }
  }

  /** A worker takes a queued task of highest priority, the oldest among its equals. */
  lemma PopTakesBest(s: State, t: Tid, key: Key)
    requires Enabled(s, t, Pop(key)) && s.pending != map[]
    ensures key in s.pending
    ensures forall k :: k in s.pending ==>
              || s.pending[k].priority < s.pending[key].priority
              || (s.pending[k].priority == s.pending[key].priority &&
                  s.pending[key].enqueuedAt <= s.pending[k].enqueuedAt)
  {
  }

  /** At most one fetch per key runs, in every interleaving. */
  lemma OneFetchPerKey(s: State, events: seq<Event>, t: Tid, u: Tid)
    requires Init(s) && Runs(s, events)
    requires t in After(s, events).threads && u in After(s, events).threads
    requires After(s, events).threads[t].Fetching? && After(s, events).threads[u].Fetching?
    requires After(s, events).threads[t].key == After(s, events).threads[u].key
    ensures t == u
  {
    InitHolds(s);
    InvOverRuns(s, events);
  }

  /** Wake-ups are never lost, in every interleaving. */
  lemma WakeupsNeverLost(s: State, events: seq<Event>)
    requires Init(s) && Runs(s, events)
    requires !After(s, events).stopped && After(s, events).pending != map[]
    ensures SomeoneWillPop(After(s, events))
  {
    InitHolds(s);
    InvOverRuns(s, events);
  }
}
