/** Waiter lists by key, and delivering one value to all waiters of a list. */
module Inflight {
  import opened TaskHeaps

  type Chan = nat

  type Lists = map<Key, seq<Chan>>

  function Waiters(wait: Lists, key: Key): seq<Chan> {
    if key in wait then wait[key] else []
  }

  function Added(wait: Lists, key: Key, ch: Chan): Lists {
    wait[key := Waiters(wait, key) + [ch]]
  }

  /** The list without the first occurrence of the channel. */
  function Without(waiters: seq<Chan>, ch: Chan): seq<Chan>
    decreases |waiters|
  {
    if waiters == [] then []
    else if waiters[0] == ch then waiters[1..]
    else [waiters[0]] + Without(waiters[1..], ch)
  }

  function Removed(wait: Lists, key: Key, ch: Chan): Lists {
    if key !in wait || ch !in wait[key] then wait
    else
      var rest := Without(wait[key], ch);
      if rest == [] then wait - {key} else wait[key := rest]
  }

  predicate NoRepeats(chs: seq<Chan>) {
    forall i, j :: 0 <= i < j < |chs| ==> chs[i] != chs[j]
  }

  /** Registered lists are never empty, so `len(wait[key]) > 0` and key membership agree. */
  ghost predicate NoneEmpty(wait: Lists) {
    forall k :: k in wait ==> wait[k] != []
  }

  /** On a list without repeats, exactly the given channel goes and nothing repeats. */
  lemma {:induction false} WithoutSpec(chs: seq<Chan>, ch: Chan)
    requires NoRepeats(chs)
    ensures NoRepeats(Without(chs, ch))
    ensures forall c :: c in Without(chs, ch) <==> c in chs && c != ch
    decreases |chs|
  {
    if chs != [] && chs[0] != ch {
      WithoutSpec(chs[1..], ch);
      assert chs == [chs[0]] + chs[1..];
      assert chs[0] !in chs[1..];
      var rest := Without(chs[1..], ch);
      forall i, j | 0 <= i < j < |rest| + 1 ensures ([chs[0]] + rest)[i] != ([chs[0]] + rest)[j] {
        if i == 0 { assert rest[j - 1] in rest; }
      }
    }
  }

  lemma {:induction false} WithoutAt(chs: seq<Chan>, ch: Chan, i: nat)
    requires i < |chs| && chs[i] == ch && ch !in chs[..i]
    ensures Without(chs, ch) == chs[..i] + chs[i + 1..]
  {
    if i > 0 {
      assert chs[0] == chs[..i][0];
      assert chs[1..][..i - 1] == chs[..i][1..];
      WithoutAt(chs[1..], ch, i - 1);
      assert chs[..i] == [chs[0]] + chs[1..][..i - 1];
    }
  }

  /** notifyWaiters: one send per channel, into a buffer nobody else has filled. */
  method NotifyWaiters<T>(sent: map<Chan, T>, waiters: seq<Chan>, value: T) returns (after: map<Chan, T>)
    requires NoRepeats(waiters) && forall ch :: ch in waiters ==> ch !in sent
    ensures forall ch :: ch in after <==> ch in sent || ch in waiters
    ensures forall ch :: ch in after ==> after[ch] == if ch in waiters then value else sent[ch]
  {
    after := sent;
    for i := 0 to |waiters|
      invariant forall ch :: ch in after <==> ch in sent || ch in waiters[..i]
      invariant forall ch :: ch in after ==> after[ch] == if ch in waiters[..i] then value else sent[ch]
    {
      assert waiters[..i + 1] == waiters[..i] + [waiters[i]];
      assert waiters[i] !in after;  // the one-slot buffer is free
      after := after[waiters[i] := value];
    }
    assert waiters[..|waiters|] == waiters;
  }

  /** Registered under some key. */
  ghost predicate Registered(wait: Lists, ch: Chan) {
    exists k :: k in wait && ch in wait[k]
  }

  class Table<T> {
    var wait: Lists

    constructor ()
      ensures wait == map[]
    {
      wait := map[];
    }

    /** Reports whether the caller is the first waiter and must start the work. */
    method Add(key: Key, ch: Chan) returns (first: bool)
      requires NoneEmpty(wait)
      modifies this
      ensures NoneEmpty(wait) && wait == Added(old(wait), key, ch)
      ensures first <==> key !in old(wait)
    {
      wait := wait[key := (if key in wait then wait[key] else []) + [ch]];
      first := |wait[key]| == 1;
    }

    method Remove(key: Key, ch: Chan)
      requires NoneEmpty(wait)
      modifies this
      ensures NoneEmpty(wait) && wait == Removed(old(wait), key, ch)
    {
      if key !in wait { return; }
      var waiters := wait[key];
      for i := 0 to |waiters|
        invariant wait == old(wait) && ch !in waiters[..i]
      {
        if waiters[i] != ch { continue; }
        WithoutAt(waiters, ch, i);
        waiters := waiters[..i] + waiters[i + 1..];
        if |waiters| == 0 { wait := wait - {key}; } else { wait := wait[key := waiters]; }
        return;
      }
      assert waiters[..|waiters|] == waiters;
    }

    method Take(key: Key) returns (waiters: seq<Chan>)
      modifies this
      ensures waiters == Waiters(old(wait), key) && wait == old(wait) - {key}
    {
      waiters := if key in wait then wait[key] else [];
      wait := wait - {key};
    }

    /** closeAll: every registered waiter is sent the value, and no list remains. */
    method CloseAll(sent: map<Chan, T>, value: T) returns (after: map<Chan, T>)
      requires forall k :: k in wait ==> NoRepeats(wait[k])
      requires forall k, ch :: k in wait && ch in wait[k] ==> ch !in sent
      requires forall k, l, ch :: k in wait && l in wait && k != l && ch in wait[k] ==> ch !in wait[l]
      modifies this
      ensures wait == map[]
      ensures forall ch :: ch in after <==> ch in sent || Registered(old(wait), ch)
      ensures forall ch :: ch in after ==> after[ch] == if Registered(old(wait), ch) then value else sent[ch]
    {
      after := sent;
      ghost var start := wait;
      while wait != map[]
        invariant wait.Keys <= start.Keys && forall k :: k in wait ==> wait[k] == start[k]
        invariant forall ch :: ch in after <==> ch in sent || Registered(start - wait.Keys, ch)
        invariant forall ch :: ch in after ==>
            after[ch] == if Registered(start - wait.Keys, ch) then value else sent[ch]
        decreases wait.Keys
      {
        var key :| key in wait;
        ghost var before := start - wait.Keys;
        var waiters := Take(key);
        after := NotifyWaiters(after, waiters, value);
        RegisteredGrows(start, before, start - wait.Keys, key);
      }
      assert start - wait.Keys == start;
    }
  }

  lemma RegisteredGrows(start: Lists, before: Lists, now: Lists, key: Key)
    requires key in start && now.Keys == before.Keys + {key} && now.Keys <= start.Keys
    requires forall k :: k in now ==> now[k] == start[k]
    requires forall k :: k in before ==> before[k] == start[k]
    ensures forall ch :: Registered(now, ch) <==> Registered(before, ch) || ch in start[key]
  {
  }
}
