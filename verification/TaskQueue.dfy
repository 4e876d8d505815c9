/** Binary heaps of hydration tasks as sequences: what one sift step keeps. */
module TaskHeaps {
  type Key = string

  datatype Task = Task(key: Key, priority: int, enqueuedAt: int)

  /** priorityQueue.Less: higher priority first, older first on ties. */
  predicate Better(a: Task, b: Task) {
    if a.priority == b.priority then a.enqueuedAt < b.enqueuedAt else a.priority > b.priority
  }

  /** Position of the parent in the heap. */
  function Up(k: nat): nat
    requires k > 0
  {
    (k - 1) / 2
  }

  function Exchanged(ts: seq<Task>, i: nat, j: nat): seq<Task>
    requires i < |ts| && j < |ts|
  {
    ts[i := ts[j]][j := ts[i]]
  }

  predicate OrderedAt(ts: seq<Task>, k: nat) {
    0 < k < |ts| ==> !Better(ts[k], ts[Up(k)])
  }

  ghost predicate Heap(ts: seq<Task>) {
    forall k: nat :: OrderedAt(ts, k)
  }

  /** Children of `j` do not beat the parent of `j`. */
  predicate BridgesAt(ts: seq<Task>, j: nat, k: nat) {
    0 < k < |ts| && 0 < j && Up(k) == j ==> !Better(ts[k], ts[Up(j)])
  }

  /** A heap but for the place of `j` under its parent. */
  ghost predicate HeapButAbove(ts: seq<Task>, j: nat) {
    forall k: nat :: (k != j ==> OrderedAt(ts, k)) && BridgesAt(ts, j, k)
  }

  /** The first `n` form a heap but for the children of `i`, and `i` itself while `loose`. */
  ghost predicate HeapButBelow(ts: seq<Task>, n: nat, i: nat, loose: bool)
    requires n <= |ts|
  {
    forall k: nat :: 0 < k < n ==> (Up(k) != i && !(loose && k == i) ==> OrderedAt(ts, k)) && BridgesAt(ts, i, k)
  }

  lemma UpStep(ts: seq<Task>, j: nat)
    requires 0 < j < |ts| && HeapButAbove(ts, j) && Better(ts[j], ts[Up(j)])
    ensures HeapButAbove(Exchanged(ts, Up(j), j), Up(j))
  {
    var i := Up(j);
    var after := Exchanged(ts, i, j);
    forall k: nat ensures (k != i ==> OrderedAt(after, k)) && BridgesAt(after, i, k) {
      if 0 < k < |ts| {
        assert k != j ==> OrderedAt(ts, k);
        assert BridgesAt(ts, j, k);
        if 0 < i { assert OrderedAt(ts, i); }
      }
    }
  }

  lemma DownStep(ts: seq<Task>, n: nat, i: nat, j: nat, loose: bool)
    requires n <= |ts| && HeapButBelow(ts, n, i, loose)
    requires i < j < n && Up(j) == i && Better(ts[j], ts[i])
    requires forall k :: 0 < k < n && Up(k) == i ==> !Better(ts[k], ts[j])
    ensures HeapButBelow(Exchanged(ts, i, j), n, j, false)
  {
  }

  lemma DownDone(ts: seq<Task>, n: nat, i: nat, loose: bool)
    requires n <= |ts| && HeapButBelow(ts, n, i, loose) && i < n
    requires forall k :: 0 < k < n && Up(k) == i ==> !Better(ts[k], ts[i])
    ensures forall k: nat :: 0 < k < n && !(loose && k == i) ==> OrderedAt(ts, k)
  {
  }

  /** The child down compares with: the better one, and neither child beats it. */
  function BestChild(ts: seq<Task>, n: nat, i: nat): (j: nat)
    requires n <= |ts| && 2 * i + 1 < n
    ensures i < j < n && Up(j) == i
    ensures forall k :: 0 < k < n && Up(k) == i ==> !Better(ts[k], ts[j])
  {
    var j := 2 * i + 1;
    assert forall k: nat :: 0 < k < n && Up(k) == i ==> k == j || k == j + 1;
    if j + 1 < n && Better(ts[j + 1], ts[j]) then j + 1 else j
  }

  lemma ChildrenYield(ts: seq<Task>, n: nat, i: nat)
    requires n <= |ts| && 2 * i + 1 < n && !Better(ts[BestChild(ts, n, i)], ts[i])
    ensures forall k :: 0 < k < n && Up(k) == i ==> !Better(ts[k], ts[i])
  {
  }

  function Max(a: int, b: int): int {
    if a > b then a else b
  }

  /** A queued task is replaced only by one of higher priority, an active one never. */
  predicate Accepts(pending: map<Key, Task>, active: set<Key>, task: Task) {
    task.key !in active && (task.key in pending ==> task.priority > pending[task.key].priority)
  }

  lemma ReplacedIsHeapButBelow(ts: seq<Task>, i: nat, task: Task)
    requires Heap(ts) && i < |ts|
    ensures HeapButBelow(ts[i := task], |ts|, i, true)
  {
    var after := ts[i := task];
    forall k: nat | 0 < k < |ts| ensures (Up(k) != i && k != i ==> OrderedAt(after, k)) && BridgesAt(after, i, k) {
      assert OrderedAt(ts, k);
      if Up(k) == i && 0 < i {
        assert OrderedAt(ts, i);
        NotBetterIsTransitive(ts[Up(i)], ts[i], ts[k]);
      }
    }
  }

  lemma PushedIsHeapButAbove(ts: seq<Task>, task: Task)
    requires Heap(ts)
    ensures HeapButAbove(ts + [task], |ts|)
  {
    var after := ts + [task];
    forall k: nat ensures (k != |ts| ==> OrderedAt(after, k)) && BridgesAt(after, |ts|, k) {
      assert OrderedAt(ts, k);
    }
  }

  lemma RootExchangedIsHeapButBelow(ts: seq<Task>, n: nat)
    requires Heap(ts) && |ts| == n + 1
    ensures HeapButBelow(Exchanged(ts, 0, n), n, 0, true)
  {
    forall k: nat | 0 < k < n && Up(k) != 0 ensures OrderedAt(Exchanged(ts, 0, n), k) {
      assert OrderedAt(ts, k);
    }
  }

  lemma PrefixIsHeap(ts: seq<Task>, n: nat)
    requires n <= |ts| && forall k: nat :: 0 < k < n ==> OrderedAt(ts, k)
    ensures Heap(ts[..n])
  {
    forall k: nat ensures OrderedAt(ts[..n], k) {
      if 0 < k < n { assert OrderedAt(ts, k); }
    }
  }

  lemma NotBetterIsTransitive(a: Task, b: Task, c: Task)
    requires !Better(b, a) && !Better(c, b)
    ensures !Better(c, a)
  {
  }

  /** The root of a heap is a best task: highest priority, oldest among its equals. */
  lemma {:induction false} RootIsBest(ts: seq<Task>, k: nat)
    requires Heap(ts) && k < |ts|
    ensures !Better(ts[k], ts[0])
    ensures ts[k].priority <= ts[0].priority
    ensures ts[k].priority == ts[0].priority ==> ts[0].enqueuedAt <= ts[k].enqueuedAt
  {
    if k > 0 {
      assert OrderedAt(ts, k);
      RootIsBest(ts, Up(k));
      NotBetterIsTransitive(ts[0], ts[Up(k)], ts[k]);
    }
  }
}

/**
 * The hydrator's work queue: a binary heap of shared task items in a slice, the map that
 * deduplicates them by key, and the set of keys being fetched.  The heap procedures are those
 * of container/heap.
 */
module TaskQueue {
  import opened TaskHeaps

  class TaskItem {
    var task: Task
    var index: int

    constructor (task: Task)
      ensures this.task == task
    {
      this.task := task;
      index := 0;
    }
  }

  class Queue {
    var items: seq<TaskItem>
    var queued: map<Key, TaskItem>
    var active: set<Key>

    ghost var repr: set<TaskItem>
    ghost var tasks: seq<Task>         // the tasks of `items`, position by position
    ghost var pending: map<Key, Task>  // the abstract queue: one task per key

    /** Every item knows its own position; in particular no item occurs twice. */
    ghost predicate Indexed()
      reads this`items, this`tasks, this`repr, repr
    {
      && |tasks| == |items|
      && forall i :: 0 <= i < |items| ==> items[i] in repr && items[i].index == i && items[i].task == tasks[i]
    }

    /** The item is in the heap, at the position it remembers. */
    ghost predicate Holds(x: TaskItem)
      reads this`items, x`index
    {
      0 <= x.index < |items| && items[x.index] == x
    }

    /** The heap and the dedupe map hold the same items, one per key, and none that is active. */
    ghost predicate Deduplicated()
      reads this`items, this`queued, this`active, this`tasks, this`pending, this`repr, repr
    {
      && queued.Keys == pending.Keys
      && (forall x :: x in repr && Holds(x) ==> x.task.key in queued && queued[x.task.key] == x)
      && (forall key :: key in queued ==>
            && queued[key] in repr && Holds(queued[key])
            && queued[key].task == pending[key] && pending[key].key == key && key !in active)
    }

    ghost predicate Valid()
      reads this, repr
    {
      Indexed() && Heap(tasks) && Deduplicated()
    }

    constructor ()
      ensures Valid() && pending == map[] && active == {} && repr == {}
    {
      items, queued, active := [], map[], {};
      repr, tasks, pending := {}, [], map[];
    }

    method Swap(i: nat, j: nat)
      requires i < |items| && j < |items| && Indexed()
      modifies this`items, this`tasks, repr`index
      ensures Indexed() && tasks == Exchanged(old(tasks), i, j)
      ensures forall x :: x in repr ==> (old(Holds(x)) <==> Holds(x))
      ensures items == old(items)[i := old(items[j])][j := old(items[i])]
    {
      var a, b := items[i], items[j];
      items := items[i := b][j := a];
      b.index, a.index := i, j;
      tasks := Exchanged(tasks, i, j);
    }

    /** container/heap up */
    method SiftUp(start: nat)
      requires start < |items| && Indexed() && HeapButAbove(tasks, start)
      modifies this`items, this`tasks, repr`index
      ensures Indexed() && Heap(tasks) && |items| == |old(items)|
      ensures forall x :: x in repr ==> (old(Holds(x)) <==> Holds(x))
    {
      var j: nat := start;
      while j > 0 && Better(items[j].task, items[Up(j)].task)
        invariant j < |items| == |old(items)| && Indexed() && HeapButAbove(tasks, j)
        invariant forall x :: x in repr ==> (old(Holds(x)) <==> Holds(x))
        decreases j
      {
        UpStep(tasks, j);
        Swap(Up(j), j);
        j := Up(j);
      }
    }

    /** One round of container/heap down: stay at `i`, or move to the child that beats it. */
    method SinkOnce(i: nat, n: nat, ghost loose: bool) returns (j: nat)
      requires i < n <= |items| && Indexed() && HeapButBelow(tasks, n, i, loose) && 2 * i + 1 < n
      modifies this`items, this`tasks, repr`index
      ensures Indexed() && |items| == |old(items)|
      ensures forall k :: n <= k < |items| ==> items[k] == old(items[k])
      ensures forall x :: x in repr ==> (old(Holds(x)) <==> Holds(x))
      ensures j == i ==> tasks == old(tasks) && forall k :: 0 < k < n && Up(k) == i ==> !Better(tasks[k], tasks[i])
      ensures j != i ==> i < j < n && HeapButBelow(tasks, n, j, false)
    {
      j := 2 * i + 1;
      if j + 1 < n && Better(items[j + 1].task, items[j].task) { j := j + 1; }
      assert j == BestChild(tasks, n, i);
      if Better(items[j].task, items[i].task) {
        DownStep(tasks, n, i, j, loose);
        Swap(i, j);
      } else {
        ChildrenYield(tasks, n, i);
        j := i;
      }
    }

    /** container/heap down, on the first `n` items. */
    method SiftDown(start: nat, n: nat) returns (moved: bool)
      requires start < n <= |items| && Indexed() && HeapButBelow(tasks, n, start, true)
      modifies this`items, this`tasks, repr`index
      ensures Indexed() && |items| == |old(items)|
      ensures forall k :: n <= k < |items| ==> items[k] == old(items[k])
      ensures forall x :: x in repr ==> (old(Holds(x)) <==> Holds(x))
      ensures forall k: nat :: 0 < k < n && (moved || k != start) ==> OrderedAt(tasks, k)
      ensures !moved ==> tasks == old(tasks)
    {
      var i, done := start, false;
      while !done && 2 * i + 1 < n
        invariant start <= i < n <= |items| == |old(items)| && Indexed()
        invariant HeapButBelow(tasks, n, i, i == start)
        invariant forall k :: n <= k < |items| ==> items[k] == old(items[k])
        invariant i == start ==> tasks == old(tasks)
        invariant forall x :: x in repr ==> (old(Holds(x)) <==> Holds(x))
        invariant done ==> forall k :: 0 < k < n && Up(k) == i ==> !Better(tasks[k], tasks[i])
        decreases n - i, !done
      {
        var j := SinkOnce(i, n, i == start);
        done := j == i;
        i := j;
      }
      DownDone(tasks, n, i, i == start);
      moved := i > start;
    }

    /** heap.Fix after the task at position `i` was replaced. */
    method HeapFix(i: nat)
      requires i < |items| && Indexed() && HeapButBelow(tasks, |items|, i, true)
      modifies this`items, this`tasks, repr`index
      ensures Indexed() && Heap(tasks) && |items| == |old(items)|
      ensures forall x :: x in repr ==> (old(Holds(x)) <==> Holds(x))
    {
      var moved := SiftDown(i, |items|);
      if !moved { SiftUp(i); }
    }

    /** heap.Push */
    method HeapPush(item: TaskItem)
      requires Indexed() && Heap(tasks) && item !in repr
      modifies this`items, this`tasks, this`repr, repr`index, item`index
      ensures Indexed() && Heap(tasks) && |items| == |old(items)| + 1
      ensures repr == old(repr) + {item} && Holds(item)
      ensures forall x :: x in old(repr) ==> (old(Holds(x)) <==> Holds(x))
    {
      item.index := |items|;
      PushedIsHeapButAbove(tasks, item.task);
      items, tasks, repr := items + [item], tasks + [item.task], repr + {item};
      SiftUp(|items| - 1);
    }

    /** heap.Pop: the root leaves, the rest stays a heap. */
    method HeapPop() returns (item: TaskItem)
      requires Indexed() && Heap(tasks) && |items| > 0
      modifies this`items, this`tasks, repr`index
      ensures item == old(items[0]) && item in repr
      ensures Indexed() && Heap(tasks) && |items| == |old(items)| - 1
      ensures !Holds(item)
      ensures forall x :: x in repr && x != item ==> (old(Holds(x)) <==> Holds(x))
    {
      var n := |items| - 1;
      RootExchangedIsHeapButBelow(tasks, n);
      Swap(0, n);
      if n > 0 { var _ := SiftDown(0, n); }
      item := items[n];
      PrefixIsHeap(tasks, n);
      items, tasks := items[..n], tasks[..n];
    }

    /** heap.Fix keeps heap and map in agreement. */
    method FixLocked(i: nat)
      requires i < |items| && Indexed() && Deduplicated() && HeapButBelow(tasks, |items|, i, true)
      modifies this`items, this`tasks, repr`index
      ensures Valid()
    {
      HeapFix(i);
    }

    /** A queued item takes on another task of its key, wherever it stands in the heap. */
    method ReplaceTask(item: TaskItem, task: Task)
      requires Valid() && task.key in queued && item == queued[task.key]
      modifies this`tasks, this`pending, item`task
      ensures item.index == old(item.index) && 0 <= item.index < |items|
      ensures Indexed() && Deduplicated() && HeapButBelow(tasks, |items|, item.index, true)
      ensures pending == old(pending)[task.key := task]
    {
      assert Holds(item) && tasks[item.index].key == task.key;
      ReplacedIsHeapButBelow(tasks, item.index, task);
      tasks, pending := tasks[item.index := task], pending[task.key := task];
      item.task := task;
    }

    /** A queued item takes on a task of higher priority. */
    method RaiseLocked(task: Task)
      requires Valid() && task.key in queued
      modifies this`items, this`tasks, this`pending, repr
      ensures Valid() && pending == old(pending)[task.key := task]
    {
      var item := queued[task.key];
      assert Holds(item);
      ReplaceTask(item, task);
      FixLocked(item.index);
    }

    method InsertLocked(task: Task)
      requires Valid() && task.key !in queued && task.key !in active
      modifies this`items, this`queued, this`repr, this`tasks, this`pending, repr
      ensures Valid() && fresh(repr - old(repr)) && pending == old(pending)[task.key := task]
    {
      var item := new TaskItem(task);
      HeapPush(item);
      queued, pending := queued[task.key := item], pending[task.key := task];
    }

    /** enqueueLocked: reports whether a worker should be woken. */
    method EnqueueLocked(task: Task) returns (signal: bool)
      requires Valid()
      modifies this`items, this`queued, this`repr, this`tasks, this`pending, repr
      ensures Valid() && fresh(repr - old(repr))
      ensures signal == Accepts(old(pending), active, task)
      ensures pending == if signal then old(pending)[task.key := task] else old(pending)
      ensures forall key :: key in old(pending) ==>
                key in pending && pending[key].priority >= old(pending)[key].priority
      ensures forall key :: key in pending && key != task.key ==> key in old(pending)
      ensures task.key !in active ==>
                && task.key in pending
                && pending[task.key].priority ==
                     if task.key in old(pending) then Max(old(pending)[task.key].priority, task.priority)
                     else task.priority
      ensures signal <==>
                && task.key !in active
                && (task.key !in old(pending) || pending[task.key].priority > old(pending)[task.key].priority)
    {
      if task.key in active { return false; }
      if task.key in queued {
        if task.priority > queued[task.key].task.priority {
          RaiseLocked(task);
          return true;
        }
        return false;
      }
      InsertLocked(task);
      return true;
    }

    /** The locked part of step: pop a best task and mark its key active. */
    method TakeNext() returns (taken: bool, task: Task, more: bool)
      requires Valid()
      modifies this`items, this`queued, this`active, this`tasks, this`pending, repr
      ensures Valid()
      ensures taken <==> old(pending) != map[]
      ensures !taken ==> pending == map[] && active == old(active)
      ensures taken ==>
                && task.key in old(pending) && task == old(pending)[task.key]
                && (forall key :: key in old(pending) ==> !Better(old(pending)[key], task))
                && (forall key :: key in old(pending) ==>
                      old(pending)[key].priority < task.priority ||
                      (old(pending)[key].priority == task.priority &&
                       task.enqueuedAt <= old(pending)[key].enqueuedAt))
                && pending == old(pending) - {task.key}
                && active == old(active) + {task.key} && task.key !in old(active)
                && more == (pending != map[])
    {
      EmptyTogether();
      if |items| == 0 { return false, Task("", 0, 0), false; }
      RootIsBestPending();
      task := PopLocked();
      taken, more := true, |items| > 0;
      EmptyTogether();
    }

    method PopLocked() returns (task: Task)
      requires Valid() && |items| > 0
      modifies this`items, this`queued, this`active, this`tasks, this`pending, repr
      ensures Valid() && task == old(tasks[0])
      ensures task.key in old(pending) && old(pending)[task.key] == task
      ensures pending == old(pending) - {task.key} && active == old(active) + {task.key} && task.key !in old(active)
    {
      assert Holds(items[0]);
      var item := HeapPop();
      task := item.task;
      queued, pending := queued - {task.key}, pending - {task.key};
      active := active + {task.key};
    }

    lemma RootIsBestPending()
      requires Valid() && |items| > 0
      ensures forall key :: key in pending ==> !Better(pending[key], tasks[0])
    {
      forall key | key in pending ensures !Better(pending[key], tasks[0]) {
        assert Holds(queued[key]);
        RootIsBest(tasks, queued[key].index);
      }
    }

    lemma EmptyTogether()
      requires Indexed() && Deduplicated()
      ensures items == [] <==> pending == map[]
    {
      if pending != map[] {
        var key :| key in pending;
        assert Holds(queued[key]);
      }
      if items != [] { assert Holds(items[0]) && items[0] in repr; }
    }

    /** finishHydration's share: the key may be queued again. */
    method FinishLocked(key: Key)
      requires Valid()
      modifies this`active
      ensures Valid() && active == old(active) - {key}
    {
      active := active - {key};
    }

    /** Stop's share: heap and map are dropped together. */
    method Clear()
      requires Valid()
      modifies this`items, this`queued, this`tasks, this`pending
      ensures Valid() && pending == map[] && items == []
    {
      items, queued := [], map[];
      tasks, pending := [], map[];
    }
  }
}
