/** Every system call keeps the scheduler invariant, hence so does every run. */
module KernelRuns {
  import opened Types
  import opened Lists
  import opened Queue
  import opened Delta
  import opened KernelState
  import opened KernelInv

  /** p became ready at most by leaving the first n entries of q; its key then is its priority. */
  ghost predicate Released(k: State, k': State, l: seq<int>, p: int)
    requires 0 <= p < |k.procs| && |k'.procs| == |k.procs| && |k.keys| == |k'.keys| == |k.procs|
  {
    && k'.procs[p] == (if p in l then k.procs[p].(prstate := PR_READY) else k.procs[p])
    && (p !in l ==> k'.keys[p] == k.keys[p])
  }

  lemma PopReadyEffect(k: State, q: int)
    requires Shape(k) && q in k.lists && q != k.readylist && k.lists[q] != [] && k.ndefers > 0
    ensures var p, k' := k.lists[q][0], PopReady(k, q);
            && k'.procs == k.procs[p := k.procs[p].(prstate := PR_READY)]
            && k'.keys == k.keys[p := k.procs[p].prprio] && k'.attempt
            && (forall r :: r in k.lists && r != k.readylist && r != q ==> k'.lists[r] == k.lists[r])
  {
  }

  /** What a release under deferral changes: the first n processes of q become ready, nobody else is touched. */
  lemma {:induction false} ReleaseEffect(k: State, q: int, n: nat)
    requires Shape(k) && q in k.lists && q != k.readylist && n <= |k.lists[q]| && k.ndefers > 0
    ensures var l, k' := k.lists[q], Release(k, q, n);
            && (forall p :: 0 <= p < |k.procs| ==> Released(k, k', l[..n], p))
            && (forall r :: r in k.lists && r != k.readylist && r != q ==> k'.lists[r] == k.lists[r])
            && k'.attempt == (n > 0 || k.attempt)
  {
    hide PopReady;
    if n > 0 {
      ReleaseEffect(k, q, n - 1);
      var l, k1 := k.lists[q], Release(k, q, n - 1);
      PopReadyEffect(k1, q);
      assert l[n - 1..][0] == l[n - 1];
      assert l[..n] == l[..n - 1] + [l[n - 1]];
      forall p | 0 <= p < |k.procs|
        ensures Released(k, Release(k, q, n), l[..n], p)
      {
        assert Released(k, k1, l[..n - 1], p);
      }
    }
  }

  lemma ReadyDeferredCore(k: State, p: int, y: int)
    requires Core(k, p, y) && IsPid(k, p) && k.ndefers > 0
    requires k.conts[p] == InReceive ==> k.procs[p].prhasmsg
    ensures Core(Ready(k, p), -1, y)
  {
    EnrollCore(k, p, y);
    PlacedSame(Enroll(k, p), Ready(k, p), -1);
  }

  lemma {:induction false} ExpiredKeys(l: seq<int>, keys: seq<int>, j: int)
    requires Pids(l, |keys|) && 0 <= j < Expired(l, keys)
    ensures keys[l[j]] <= 0
  {
    if j > 0 {
      ExpiredKeys(l[1..], keys, j - 1);
    }
  }

  // A sleeper whose delta is zero leaves without changing any other delta.
  lemma UnsleepZero(k: State)
    requires Shape(k) && k.lists[k.sleepq] != [] && k.keys[k.lists[k.sleepq][0]] == 0
    ensures Unsleep(k, k.lists[k.sleepq][0]) == k.(lists := k.lists[k.sleepq := k.lists[k.sleepq][1..]])
  {
    WithoutHead(k.lists[k.sleepq]);
  }

  // The first process of a queue taken off it, before it is made ready.
  ghost function Popped(k: State, q: int): (k': State)
    requires Shape(k) && q in k.lists && k.lists[q] != []
    ensures Shape(k')
  {
    k.(lists := k.lists[q := k.lists[q][1..]])
  }

  lemma SleeperInTransit(k: State)
    requires Core(k, -1, -1) && k.lists[k.sleepq] != [] && k.keys[k.lists[k.sleepq][0]] == 0
    ensures var p := k.lists[k.sleepq][0];
            IsPid(k, p) && k.conts[p] != InReceive && k.procs[p].prstate in {PR_SLEEP, PR_RECTIM}
            && Core(Popped(k, k.sleepq), p, -1)
  {
    var p := k.lists[k.sleepq][0];
    assert p in k.lists[k.sleepq] && PlacedOn(k, -1, k.sleepq);
    UnsleepZero(k);
    UnsleepCore(k, p, -1);
  }

  lemma PopSleeperCore(k: State)
    requires Core(k, -1, -1) && k.ndefers > 0 && k.lists[k.sleepq] != [] && k.keys[k.lists[k.sleepq][0]] == 0
    ensures Core(PopReady(k, k.sleepq), -1, -1)
  {
    SleeperInTransit(k);
    ReadyDeferredCore(Popped(k, k.sleepq), k.lists[k.sleepq][0], -1);
  }

  // While the expired sleepers are being released, the next one has a zero delta.
  lemma NextSleeper(k: State, n: nat)
    requires Core(k, -1, -1) && k.ndefers > 0 && n < Expired(k.lists[k.sleepq], k.keys)
    ensures var k1 := Release(k, k.sleepq, n);
            k1.lists[k.sleepq] != [] && k1.keys[k1.lists[k.sleepq][0]] == 0
  {
    hide PopReady;
    ReleaseEffect(k, k.sleepq, n);
    var l, k1 := k.lists[k.sleepq], Release(k, k.sleepq, n);
    ExpiredKeys(l, k.keys, n);
    assert k1.lists[k.sleepq][0] == l[n] && l[n] !in l[..n];
    assert Released(k, k1, l[..n], l[n]);
    assert 0 <= k.keys[l[n]];
  }

  lemma {:induction false} ReleaseSleepers(k: State, n: nat)
    requires Core(k, -1, -1) && k.ndefers > 0 && n <= Expired(k.lists[k.sleepq], k.keys)
    ensures Core(Release(k, k.sleepq, n), -1, -1)
  {
    hide PopReady, Placed, ReadySorted, Tame, SemLaw, Mail, OneCurrent;
    if n > 0 {
      ReleaseSleepers(k, n - 1);
      NextSleeper(k, n - 1);
      PopSleeperCore(Release(k, k.sleepq, n - 1));
    }
  }

  lemma WaiterInTransit(k: State, s: int)
    requires Core(k, -1, s) && !BadSem(k, s) && k.lists[k.sems[s].squeue] != []
    ensures var q := k.sems[s].squeue;
            var p := k.lists[q][0];
            IsPid(k, p) && k.conts[p] != InReceive && k.procs[p].prstate == PR_WAIT && Core(Popped(k, q), p, s)
  {
    var q := k.sems[s].squeue;
    var p := k.lists[q][0];
    assert p in k.lists[q] && PlacedOn(k, -1, q);
    WithoutHead(k.lists[q]);
    UnwaitCore(k, s, p, k.sems[s].scount, s);
    assert WithCount(k, s, k.sems[s].scount) == k;
  }

  lemma PopWaiterCore(k: State, s: int)
    requires Core(k, -1, s) && k.ndefers > 0 && !BadSem(k, s) && k.lists[k.sems[s].squeue] != []
    ensures Core(PopReady(k, k.sems[s].squeue), -1, s)
  {
    WaiterInTransit(k, s);
    ReadyDeferredCore(Popped(k, k.sems[s].squeue), k.lists[k.sems[s].squeue][0], s);
  }

  lemma {:induction false} ReleaseWaiters(k: State, s: int, n: nat)
    requires Core(k, -1, s) && k.ndefers > 0 && !BadSem(k, s) && n <= |k.lists[k.sems[s].squeue]|
    ensures Core(Release(k, k.sems[s].squeue, n), -1, s)
  {
    if n > 0 {
      ReleaseWaiters(k, s, n - 1);
      PopWaiterCore(Release(k, k.sems[s].squeue, n - 1), s);
    }
  }

  /** Leaving a deferral: the choice of process happens only at the outermost stop, and only if attempted. */
  lemma DeferStopInv(k: State)
    requires Core(k, -1, -1) && k.ndefers >= 0 && k.procs[k.currpid].prstate == PR_CURR
    requires k.ndefers == 0 || !k.attempt ==> Top(k)
    ensures CanStop(k)
    ensures Inv(DeferStop(k))
    ensures k.ndefers > 1 || !k.attempt ==> DeferStop(k) == k.(ndefers := if k.ndefers == 0 then 0 else k.ndefers - 1)
  {
    if k.ndefers > 0 {
      var k1 := k.(ndefers := k.ndefers - 1);
      PlacedSame(k, k1, -1);
      if k1.ndefers == 0 && k1.attempt {
        ReschedInv(k1);
      }
    }
  }

  lemma SettleCount(k: State, s: int, count: int)
    requires Core(k, -1, s) && !BadSem(k, s) && k.lists[k.sems[s].squeue] == [] && count >= 0
    ensures Core(WithCount(k, s, count), -1, -1)
  {
    PlacedSame(k, WithCount(k, s, count), -1);
  }

  lemma CountCore(k: State, s: int, count: int)
    requires Core(k, -1, s) && !BadSem(k, s)
    ensures Core(WithCount(k, s, count), -1, s)
  {
    PlacedSame(k, WithCount(k, s, count), -1);
  }

  // Making a process ready under deferral does not look at semaphore counts.
  lemma PopReadyCount(k: State, q: int, s: int, count: int)
    requires Shape(k) && k.ndefers > 0 && !BadSem(k, s) && q in k.lists && k.lists[q] != []
    ensures PopReady(WithCount(k, s, count), q) == WithCount(PopReady(k, q), s, count)
  {
  }

  ghost predicate CanCount(k: State, s: int) {
    Core(k, -1, s) && k.ndefers > 0 && 0 <= s < |k.sems|
  }

  ghost function Waiters(k: State, s: int): nat
    requires CanCount(k, s)
  {
    |k.lists[k.sems[s].squeue]|
  }

  /** `semdelete` after i rounds of its loop. */
  ghost function Counting(k: State, s: int, i: nat): State
    requires CanCount(k, s) && i <= Waiters(k, s)
  {
    WithCount(Release(k, k.sems[s].squeue, i), s, k.sems[s].scount + i + 1)
  }

  lemma CountingStart(k: State, s: int)
    requires Core(k, -1, -1) && k.ndefers > 0 && 0 <= s < |k.sems|
    ensures CanCount(k, s) && Counting(k, s, 0) == WithCount(k, s, k.sems[s].scount + 1)
    ensures Waiters(k, s) == if k.sems[s].scount < 0 then -k.sems[s].scount else 0
  {
  }

  lemma CountingStep(k: State, s: int, i: nat)
    requires CanCount(k, s) && i < Waiters(k, s)
    ensures var q, k1 := k.sems[s].squeue, Counting(k, s, i);
            && Core(k1, -1, s) && k1.ndefers > 0 && |k1.sems| == |k.sems| && k1.sems[s].squeue == q
            && q in k1.lists && k1.lists[q] != []
            && var k2 := PopReady(k1, q);
               |k2.sems| == |k.sems| && k2.sems[s].scount == k.sems[s].scount + i + 1
               && WithCount(k2, s, k2.sems[s].scount + 1) == Counting(k, s, i + 1)
  {
    hide PopReady, Core;
    ReleaseStep(k, s, i, k.sems[s].scount + i + 1);
    CountingShape(k, s, i);
  }

  lemma CountingShape(k: State, s: int, i: nat)
    requires CanCount(k, s) && i < Waiters(k, s)
    ensures var q, k1 := k.sems[s].squeue, Counting(k, s, i);
            && Shape(k1) && k1.ndefers > 0 && k1.sems == k.sems[s := k.sems[s].(scount := k.sems[s].scount + i + 1)]
            && q in k1.lists && k1.lists[q] != [] && PopReady(k1, q).sems == k1.sems
  {
  }

  lemma ReleaseCore(k: State, s: int, i: nat)
    requires Core(k, -1, s) && k.ndefers > 0 && 0 <= s < |k.sems| && i <= |k.lists[k.sems[s].squeue]|
    ensures var q := k.sems[s].squeue;
            var k' := Release(k, q, i);
            && Core(k', -1, s) && k'.sems == k.sems && k'.lists[q] == k.lists[q][i..] && k'.ndefers == k.ndefers
            && Release(k, q, 0) == k
            && (i < |k.lists[q]| ==> Release(k, q, i + 1) == PopReady(k', q))
  {
    ReleaseWaiters(k, s, i);
  }

  /** One more waiter released, the count of the semaphore being c meanwhile. */
  lemma ReleaseStep(k: State, s: int, i: nat, c: int)
    requires Core(k, -1, s) && k.ndefers > 0 && 0 <= s < |k.sems| && i < |k.lists[k.sems[s].squeue]|
    ensures var q := k.sems[s].squeue;
            var k' := Release(k, q, i);
            && Core(WithCount(k', s, c), -1, s)
            && Release(k, q, i + 1) == PopReady(k', q)
            && WithCount(PopReady(WithCount(k', s, c), q), s, c + 1) == WithCount(PopReady(k', q), s, c + 1)
  {
    hide Placed, ReadySorted, Tame, SemLaw, Mail, OneCurrent, PopReady, Release;
    ReleaseCore(k, s, i);
    CountCore(Release(k, k.sems[s].squeue, i), s, c);
    PopReadyCount(Release(k, k.sems[s].squeue, i), k.sems[s].squeue, s, c);
  }

  lemma CurrentNotQueued(k: State, q: int)
    requires Inv(k) && q in k.lists
    ensures k.currpid !in k.lists[q]
  {
    assert PlacedOn(k, -1, q);
  }

  lemma ReleaseAllKeepsCurrent(k: State, q: int, n: nat)
    requires Inv(k) && q in k.lists && q != k.readylist && n <= |k.lists[q]|
    ensures var k' := ReleaseAll(k, q, n);
            && k'.procs[k'.currpid].prstate == PR_CURR && k'.ndefers == k.ndefers + 1
            && (!k'.attempt ==> k' == DeferStart(k))
  {
    CurrentNotQueued(k, q);
    ReleaseEffect(DeferStart(k), q, n);
    assert forall x :: x in k.lists[q][..n] ==> x in k.lists[q];
    assert Released(DeferStart(k), ReleaseAll(k, q, n), k.lists[q][..n], k.currpid);
  }

  // One lemma per system call

  /** The current process is nowhere queued, so it may be taken as in transit. */
  lemma CurrentInTransit(k: State)
    requires Inv(k)
    ensures Core(k, k.currpid, -1)
  {
    PlacedOff(k, k, k.currpid);
  }

  lemma MayBlockCan(k: State)
    requires Inv(k) && MayBlock(k)
    ensures CanBlock(k)
  {
    SomeoneReady(k, -1);
  }

  ghost predicate MayBlock(k: State) {
    k.ndefers == 0 && k.currpid != NULLPROC
  }

  lemma WaitInv(k: State, s: int)
    requires Inv(k) && k.conts[k.currpid] == Running
    requires UsedSem(k, s) && k.sems[s].scount <= 0 ==> MayBlock(k) && CanBlock(k)
    ensures Inv(Wait(k, s))
  {
    if UsedSem(k, s) {
      if k.sems[s].scount > 0 {
        PlacedSame(k, Wait(k, s), -1);
      } else {
        CurrentInTransit(k);
        BlockOnCore(k, s);
        ReschedInv(Blocked(k, s));
      }
    }
  }

  // The state of a `signal` that releases a waiter, just before the waiter is made ready.
  ghost function Unwait(k: State, s: int): (k': State)
    requires Shape(k) && !BadSem(k, s) && k.lists[k.sems[s].squeue] != []
    ensures Shape(k')
  {
    var q := k.sems[s].squeue;
    WithCount(k, s, k.sems[s].scount + 1).(lists := k.lists[q := k.lists[q][1..]])
  }

  lemma UnwaitInTransit(k: State, s: int)
    requires Inv(k) && !BadSem(k, s) && k.sems[s].scount < 0
    ensures k.lists[k.sems[s].squeue] != []
    ensures var p := k.lists[k.sems[s].squeue][0];
            IsPid(k, p) && p != k.currpid && k.procs[p].prstate == PR_WAIT && Core(Unwait(k, s), p, -1)
  {
    var q := k.sems[s].squeue;
    var p := k.lists[q][0];
    assert p in k.lists[q] && PlacedOn(k, -1, q);
    WithoutHead(k.lists[q]);
    UnwaitCore(k, s, p, k.sems[s].scount + 1, -1);
  }

  lemma SemUpInv(k: State, s: int)
    requires Inv(k) && !BadSem(k, s)
    ensures k.sems[s].scount < 0 ==> k.lists[k.sems[s].squeue] != []
    ensures Inv(SemUp(k, s))
  {
    if k.sems[s].scount < 0 {
      UnwaitInTransit(k, s);
      ReadyInv(Unwait(k, s), k.lists[k.sems[s].squeue][0]);
    } else {
      UpFreeInv(k, s);
    }
  }

  lemma UpFreeInv(k: State, s: int)
    requires Inv(k) && !BadSem(k, s) && k.sems[s].scount >= 0
    ensures Inv(WithCount(k, s, k.sems[s].scount + 1))
  {
    PlacedSame(k, WithCount(k, s, k.sems[s].scount + 1), -1);
  }

  /** Emptying the queue of a semaphore under deferral and then setting any count that is not negative. */
  lemma ReleaseAllWaiters(k: State, s: int, count: int)
    requires Inv(k) && !BadSem(k, s) && count >= 0
    ensures SemQueueApart(k, s) && Inv(Emptied(k, s, count))
  {
    var q := k.sems[s].squeue;
    var n := |k.lists[q]|;
    CoreSame(k, DeferStart(k), -1, -1);
    ReleaseWaiters(DeferStart(k), s, n);
    ReleaseAllKeepsCurrent(k, q, n);
    SettleCount(ReleaseAll(k, q, n), s, count);
    DeferStopInv(WithCount(ReleaseAll(k, q, n), s, count));
  }

  lemma WakeupInv(k: State)
    requires Inv(k)
    ensures Inv(Wakeup(k))
  {
    var n := Expired(k.lists[k.sleepq], k.keys);
    CoreSame(k, DeferStart(k), -1, -1);
    ReleaseSleepers(DeferStart(k), n);
    ReleaseAllKeepsCurrent(k, k.sleepq, n);
    DeferStopInv(ReleaseAll(k, k.sleepq, n));
  }

  lemma PrioIndexFrame(l: seq<int>, keys: seq<int>, keys': seq<int>, key: int)
    requires Pids(l, |keys|) && |keys'| == |keys| && forall i :: 0 <= i < |l| ==> keys'[l[i]] == keys[l[i]]
    ensures PrioIndex(l, keys', key) == PrioIndex(l, keys, key)
  {
  }

  lemma NotInEntries(l: seq<int>, p: int)
    requires p !in l
    ensures forall i :: 0 <= i < |l| ==> l[i] != p
  {
    forall i | 0 <= i < |l| ensures l[i] != p { assert l[i] in l; }
  }

  lemma PopForgets(k: State, v: int)
    requires Shape(k) && k.sleepq != k.readylist && k.ndefers > 0 && k.lists[k.sleepq] != []
    requires k.lists[k.sleepq][0] !in k.lists[k.readylist]
    ensures PopReady(k.(keys := k.keys[k.lists[k.sleepq][0] := v]), k.sleepq) == PopReady(k, k.sleepq)
  {
    var p, r := k.lists[k.sleepq][0], k.lists[k.readylist];
    var keys' := k.keys[p := v];
    NotInEntries(r, p);
    PrioIndexFrame(r, k.keys, keys', k.procs[p].prprio);
    assert keys'[p := k.procs[p].prprio] == k.keys[p := k.procs[p].prprio];
  }

  // The key of a sleeper is forgotten when it is made ready.
  lemma {:induction false} ReleaseForgets(k: State, v: int, n: nat)
    requires Shape(k) && k.sleepq != k.readylist && k.ndefers > 0 && 1 <= n <= |k.lists[k.sleepq]|
    requires k.lists[k.sleepq][0] !in k.lists[k.readylist]
    ensures var p := k.lists[k.sleepq][0];
            Release(k.(keys := k.keys[p := v]), k.sleepq, n) == Release(k, k.sleepq, n)
  {
    hide PopReady;
    if n == 1 {
      PopForgets(k, v);
      assert Release(k, k.sleepq, 0) == k;
    } else {
      ReleaseForgets(k, v, n - 1);
    }
  }

  /** The state with a negative head delta taken as zero: a head that was due at once is woken by the same tick. */
  ghost function Lifted(k: State): (k': State)
    requires Shape(k)
    ensures Shape(k')
  {
    var l := k.lists[k.sleepq];
    if l != [] && k.keys[l[0]] < 0 then k.(keys := k.keys[l[0] := 0]) else k
  }

  // The key of a process in transit is free.
  lemma TransitKey(k: State, p: int, v: int, y: int)
    requires Core(k, p, y) && IsPid(k, p)
    ensures Core(k.(keys := k.keys[p := v]), p, y)
  {
    var k' := k.(keys := k.keys[p := v]);
    assert PlacedOn(k, p, k.sleepq) && PlacedOn(k, p, k.readylist);
    TameFrame(k.lists[k.sleepq], k.keys, p, v);
    NotInEntries(k.lists[k.readylist], p);
    PlacedSame(k, k', p);
  }

  lemma LiftedInTransit(k: State)
    requires Shape(k) && Core(Lifted(k), -1, -1) && k.lists[k.sleepq] != [] && k.keys[k.lists[k.sleepq][0]] <= 0
    ensures var p := k.lists[k.sleepq][0];
            IsPid(k, p) && k.conts[p] != InReceive && k.procs[p].prstate in {PR_SLEEP, PR_RECTIM}
            && Core(Popped(k, k.sleepq), p, -1)
  {
    hide Placed, ReadySorted, Tame, SemLaw, Mail, OneCurrent;
    var p := k.lists[k.sleepq][0];
    SleeperInTransit(Lifted(k));
    TransitKey(Popped(Lifted(k), k.sleepq), p, k.keys[p], -1);
    assert Popped(Lifted(k), k.sleepq).(keys := Lifted(k).keys[p := k.keys[p]]) == Popped(k, k.sleepq);
  }

  lemma {:induction false} ExpiredEnd(l: seq<int>, keys: seq<int>)
    requires Pids(l, |keys|)
    ensures Expired(l, keys) < |l| ==> keys[l[Expired(l, keys)]] > 0
  {
    if l != [] && keys[l[0]] <= 0 {
      ExpiredEnd(l[1..], keys);
    }
  }

  ghost predicate CanWake(k: State) {
    Shape(k) && Core(Lifted(k), -1, -1) && k.ndefers > 0
  }

  ghost function Sleepers(k: State): nat
    requires Shape(k)
  {
    Expired(k.lists[k.sleepq], k.keys)
  }

  /** `wakeup` after i rounds of its loop. */
  ghost function Waking(k: State, i: nat): State
    requires CanWake(k) && i <= Sleepers(k)
  {
    Release(k, k.sleepq, i)
  }

  ghost predicate HeadExpired(k: State)
    requires Shape(k)
  {
    k.lists[k.sleepq] != [] && k.keys[k.lists[k.sleepq][0]] <= 0
  }

  lemma LiftedSame(k: State)
    requires CanWake(k)
    ensures Sleepers(Lifted(k)) == Sleepers(k)
    ensures var l := k.lists[k.sleepq]; l != [] ==> l[0] !in k.lists[k.readylist]
  {
    var l, k1 := k.lists[k.sleepq], Lifted(k);
    assert PlacedOn(k1, -1, k.sleepq) && PlacedOn(k1, -1, k.readylist);
    if l != [] {
      assert l[0] in l;
      NoDupTail(l);
      NotInEntries(l[1..], l[0]);
      ExpiredFrame(l[1..], k.keys, k1.keys);
    }
  }

  lemma LiftedRelease(k: State, i: nat)
    requires CanWake(k) && 1 <= i <= Sleepers(k)
    ensures Release(Lifted(k), k.sleepq, i) == Release(k, k.sleepq, i)
  {
    hide Core, PopReady, Release, Expired;
    var p, k1 := k.lists[k.sleepq][0], Lifted(k);
    LiftedSame(k);
    ReleaseForgets(k1, k.keys[p], i);
    assert k1.(keys := k1.keys[p := k.keys[p]]) == k;
  }

  lemma WakingCore(k: State, i: nat)
    requires CanWake(k) && 1 <= i <= Sleepers(k)
    ensures Core(Waking(k, i), -1, -1)
  {
    hide Core, PopReady;
    LiftedSame(k);
    LiftedRelease(k, i);
    ReleaseSleepers(Lifted(k), i);
  }

  lemma WakingHead(k: State, i: nat)
    requires CanWake(k) && i <= Sleepers(k)
    ensures Shape(Waking(k, i)) && (HeadExpired(Waking(k, i)) <==> i < Sleepers(k))
  {
    var l := k.lists[k.sleepq];
    ReleaseEffect(k, k.sleepq, i);
    assert NoDup(l) by { assert PlacedOn(Lifted(k), -1, k.sleepq); }
    if i < |l| {
      assert Waking(k, i).lists[k.sleepq][0] == l[i] && l[i] !in l[..i];
      assert Released(k, Waking(k, i), l[..i], l[i]);
      if i < Sleepers(k) { ExpiredKeys(l, k.keys, i); } else { ExpiredEnd(l, k.keys); }
    }
  }

  lemma WakingStep(k: State, i: nat)
    requires CanWake(k) && i <= Sleepers(k)
    ensures CanWake(Waking(k, i)) && (HeadExpired(Waking(k, i)) <==> i < Sleepers(k))
    ensures Waking(k, 0) == k
    ensures i < Sleepers(k) ==> PopReady(Waking(k, i), Waking(k, i).sleepq) == Waking(k, i + 1)
  {
    WakingHead(k, i);
    if i > 0 {
      WakingCore(k, i);
    }
  }

  /** From the first to the last step of `wakeup`. */
  lemma WakeupPlan(k: State)
    requires Shape(k) && Inv(Lifted(k))
    ensures var k1 := DeferStart(k);
            && CanWake(k1)
            && var k2 := Waking(k1, Sleepers(k1));
               && Core(k2, -1, -1) && 0 <= k2.currpid < |k2.procs| && k2.procs[k2.currpid].prstate == PR_CURR
               && CanStop(k2) && k.readylist != k.sleepq && k.ndefers >= 0 && Wakeup(k) == DeferStop(k2)
  {
    hide Placed, ReadySorted, Tame, SemLaw, Mail, PopReady, Resched;
    var k1, n := DeferStart(k), Expired(k.lists[k.sleepq], k.keys);
    assert Lifted(k1) == DeferStart(Lifted(k));
    CoreSame(Lifted(k), DeferStart(Lifted(k)), -1, -1);
    if n > 0 {
      WakingCore(k1, n);
    } else {
      ExpiredEnd(k.lists[k.sleepq], k.keys);
    }
    ReleaseEffect(k1, k.sleepq, n);
    CurrentNotQueued(Lifted(k), k.sleepq);
    assert forall x :: x in k.lists[k.sleepq][..n] ==> x in k.lists[k.sleepq];
    assert Released(k1, Waking(k1, n), k.lists[k.sleepq][..n], k.currpid);
  }

  // A head delta that is already zero is decremented without effect: its process wakes up at once.
  lemma ZeroHeadTick(k: State)
    requires Inv(k) && k.lists[k.sleepq] != [] && k.keys[k.lists[k.sleepq][0]] == 0
    ensures Wakeup(HeadDown(k)) == Wakeup(k)
  {
    hide Inv, Expired, Release;
    SleepHead(k);
    ZeroHeadExpired(k.lists[k.sleepq], k.keys);
    ReleaseForgets(DeferStart(k), -1, Expired(k.lists[k.sleepq], k.keys));
  }

  lemma SleepHead(k: State)
    requires Inv(k) && k.lists[k.sleepq] != []
    ensures Shape(k)
    ensures var l := k.lists[k.sleepq]; Pids(l, |k.keys|) && NoDup(l) && l[0] !in k.lists[k.readylist]
    ensures k.readylist != k.sleepq && k.ndefers >= 0
  {
    var l := k.lists[k.sleepq];
    assert l[0] in l && PlacedOn(k, -1, k.sleepq) && PlacedOn(k, -1, k.readylist);
  }

  lemma ZeroHeadExpired(l: seq<int>, keys: seq<int>)
    requires Pids(l, |keys|) && NoDup(l) && l != [] && keys[l[0]] == 0
    ensures Expired(l, keys[l[0] := -1]) == Expired(l, keys) >= 1
  {
    NoDupTail(l);
    NotInEntries(l[1..], l[0]);
    ExpiredFrame(l[1..], keys, keys[l[0] := -1]);
  }

  lemma ExpiredFrame(l: seq<int>, keys: seq<int>, keys': seq<int>)
    requires Pids(l, |keys|) && |keys'| == |keys| && forall i :: 0 <= i < |l| ==> keys'[l[i]] == keys[l[i]]
    ensures Expired(l, keys') == Expired(l, keys)
  {
  }

  lemma HeadDownInv(k: State)
    requires Inv(k) && k.lists[k.sleepq] != [] && k.keys[k.lists[k.sleepq][0]] >= 1
    ensures Inv(HeadDown(k))
  {
    hide Agenda, Home;
    var l, r := k.lists[k.sleepq], k.lists[k.readylist];
    HeadDownTame(l, k.keys);
    assert l[0] in l && PlacedOn(k, -1, k.sleepq) && PlacedOn(k, -1, k.readylist);
    NotInEntries(r, l[0]);
    PlacedSame(k, HeadDown(k), -1);
  }

  lemma ContInv(k: State, c: Cont)
    requires Inv(k) && c != InReceive
    ensures Inv(WithCont(k, k.currpid, c))
  {
    PlacedSame(k, WithCont(k, k.currpid, c), -1);
  }

  lemma HeadTickInv(k: State)
    requires Inv(k) && k.lists[k.sleepq] != []
    ensures var k' := HeadDown(k);
            if k'.keys[k.lists[k.sleepq][0]] <= 0 then Inv(Wakeup(k')) else Inv(k')
  {
    if k.keys[k.lists[k.sleepq][0]] >= 1 {
      HeadDownInv(k);
      WakeupInv(HeadDown(k));
    } else {
      ZeroHeadTick(k);
      WakeupInv(k);
    }
  }

  lemma TickInv(k: State)
    requires Inv(k)
    ensures Inv(Tick(k))
  {
    ContInv(k, InTick);
    if k.lists[k.sleepq] != [] {
      HeadTickInv(WithCont(k, k.currpid, InTick));
    }
  }

  /** The branches of a clock interrupt. */
  lemma TickPlan(k: State)
    requires Inv(k)
    ensures var k1 := WithCont(k, k.currpid, InTick);
            && k.readylist != k.sleepq && k.ndefers >= 0 && Inv(k1) && Shape(k1)
            && (k1.lists[k1.sleepq] == [] ==> Tick(k) == k1)
            && (k1.lists[k1.sleepq] != [] ==>
                  var k2 := HeadDown(k1);
                  && Shape(k2) && (HeadExpired(k2) ==> Inv(Lifted(k2)) && k2.readylist != k2.sleepq && Tick(k) == Wakeup(k2))
                  && (!HeadExpired(k2) ==> Tick(k) == k2))
  {
    var k1 := WithCont(k, k.currpid, InTick);
    ContInv(k, InTick);
    if k1.lists[k1.sleepq] != [] {
      if k1.keys[k1.lists[k1.sleepq][0]] >= 1 {
        HeadDownInv(k1);
      } else {
        assert Lifted(HeadDown(k1)) == k1;
      }
    }
  }

  lemma TickTailInv(k: State)
    requires Inv(k)
    ensures Inv(TickTail(k))
  {
    hide Placed, ReadySorted, Tame, SemLaw, Mail, Separate, Top, Resched;
    var k1 := WithCont(k, k.currpid, Running);
    ContInv(k, Running);
    SliceInv(k1, if k.preempt - 1 <= 0 then QUANTUM else k.preempt - 1);
    if k.preempt - 1 <= 0 {
      ReschedInv(k1.(preempt := QUANTUM));
    }
  }

  lemma SliceInv(k: State, preempt: int)
    requires Inv(k) && 1 <= preempt <= QUANTUM
    ensures Inv(k.(preempt := preempt))
  {
    CoreSame(k, k.(preempt := preempt), -1, -1);
  }

  lemma SleepInv(k: State, delay: int)
    requires Inv(k) && k.conts[k.currpid] == Running && 0 <= delay <= INT32_MAX
    requires delay != 0 ==> MayBlock(k) && CanBlock(k)
    ensures Inv(SleepMs(k, delay))
  {
    if delay == 0 {
      ReschedInv(k);
    } else {
      CurrentInTransit(k);
      GoToSleepCore(k, delay, PR_SLEEP, Running);
      var k1 := GoToSleep(k, delay, PR_SLEEP);
      assert WithCont(k1, k.currpid, Running) == k1;
      ReschedInv(k1);
    }
  }

  // A process in transit lands off all queues.
  lemma LandCore(k: State, p: int, pr: Proc, c: Cont)
    requires Core(k, p, -1) && IsPid(k, p) && MailOk(pr, c)
    requires pr.prstate in {PR_FREE, PR_RECV, PR_SUSP} || (pr.prstate == PR_CURR && p == k.currpid)
    requires p == NULLPROC ==> pr.prstate == PR_CURR
    requires pr.prprio == k.procs[p].prprio
    ensures Core(k.(procs := k.procs[p := pr], conts := k.conts[p := c]), -1, -1)
  {
    var k' := k.(procs := k.procs[p := pr], conts := k.conts[p := c]);
    PlacedOff(k, k', p);
  }

  lemma ReceiveInv(k: State)
    requires Inv(k) && k.conts[k.currpid] == Running
    requires !HasMessage(k) ==> MayBlock(k) && CanBlock(k)
    ensures Inv(Receive(k))
  {
    if HasMessage(k) {
      TakeInv(k);
    } else {
      var p := k.currpid;
      CurrentInTransit(k);
      LandCore(k, p, k.procs[p].(prstate := PR_RECV), InReceive);
      ReschedInv(WithCont(WithState(k, p, PR_RECV), p, InReceive));
    }
  }

  lemma TakeInv(k: State)
    requires Inv(k) && k.conts[k.currpid] != InReceive
    ensures Inv(TakeMessage(k))
  {
    SameStatesPlaced(k, TakeMessage(k));
  }

  // Placement does not depend on mailboxes.
  lemma SameStatesPlaced(k: State, k': State)
    requires Shape(k) && Shape(k') && Placed(k, -1) && |k'.procs| == |k.procs|
    requires k' == k.(procs := k'.procs, conts := k'.conts)
    requires forall p :: 0 <= p < |k.procs| ==>
      k'.procs[p].prstate == k.procs[p].prstate && k'.procs[p].prsem == k.procs[p].prsem
    ensures Placed(k', -1)
  {
    forall q | q in k'.lists
      ensures PlacedOn(k', -1, q)
    {
      assert PlacedOn(k, -1, q);
      forall p | 0 <= p < |k.procs| ensures Home(k', p) == Home(k, p) {}
    }
  }

  lemma ReceiveTailInv(k: State)
    requires Inv(k)
    ensures Inv(ReceiveTail(k))
  {
    ContInv(k, Running);
    TakeInv(WithCont(k, k.currpid, Running));
  }

  lemma RecvTimeInv(k: State, maxwait: int)
    requires Inv(k) && k.conts[k.currpid] == Running && maxwait <= INT32_MAX
    requires maxwait >= 0 && !HasMessage(k) ==> MayBlock(k) && CanBlock(k)
    ensures Inv(RecvTime(k, maxwait))
  {
    if maxwait >= 0 {
      if HasMessage(k) {
        TakeInv(k);
      } else {
        CurrentInTransit(k);
        GoToSleepCore(k, maxwait, PR_RECTIM, InRecvTime);
        ReschedInv(WithCont(GoToSleep(k, maxwait, PR_RECTIM), k.currpid, InRecvTime));
      }
    }
  }

  /** Taking process p, in transit, as having received a message. */
  lemma DeliverCore(k: State, p: int, msg: int)
    requires Core(k, p, -1) && IsPid(k, p)
    ensures Core(Delivered(k, p, msg), p, -1)
  {
    var k' := Delivered(k, p, msg);
    forall q | q in k'.lists
      ensures PlacedOn(k', p, q)
    {
      assert PlacedOn(k, p, q);
    }
  }

  lemma SendWaitingInv(k: State, p: int, msg: int)
    requires Inv(k) && IsPid(k, p) && k.procs[p].prstate == PR_RECV
    ensures Inv(Ready(Delivered(k, p, msg), p))
  {
    PlacedOff(k, k, p);
    DeliverCore(k, p, msg);
    ReadyInv(Delivered(k, p, msg), p);
  }

  lemma SendTimedInv(k: State, p: int, msg: int)
    requires Inv(k) && IsPid(k, p) && k.procs[p].prstate == PR_RECTIM
    ensures Inv(Ready(Unsleep(Delivered(k, p, msg), p), p))
  {
    UnsleepCore(k, p, -1);
    DeliverCore(Unsleep(k, p), p, msg);
    ReadyInv(Unsleep(Delivered(k, p, msg), p), p);
  }

  lemma SendPlainInv(k: State, p: int, msg: int)
    requires Inv(k) && IsPid(k, p) && k.procs[p].prstate !in {PR_RECV, PR_RECTIM}
    ensures Inv(Delivered(k, p, msg))
  {
    SameStatesPlaced(k, Delivered(k, p, msg));
  }

  lemma SendInv(k: State, p: int, msg: int)
    requires Inv(k)
    ensures Inv(Send(k, p, msg))
  {
    if !BadPid(k, p) && !k.procs[p].prhasmsg {
      match k.procs[p].prstate
      case PR_RECV => SendWaitingInv(k, p, msg);
      case PR_RECTIM => SendTimedInv(k, p, msg);
      case _ => SendPlainInv(k, p, msg);
    }
  }

  lemma SuspendInv(k: State, p: int)
    requires Inv(k) && (p == k.currpid && p != NULLPROC ==> k.ndefers == 0 && CanBlock(k))
    ensures Inv(Suspend(k, p))
  {
    hide Placed, ReadySorted, Tame, SemLaw, Separate, IndexOf, RemoveAt, Resched;
    if !BadPid(k, p) && p != NULLPROC {
      var pr := k.procs[p].(prstate := PR_SUSP);
      if k.procs[p].prstate == PR_READY {
        UnreadyCore(k, p, -1);
        LandCore(Unlinked(k, k.readylist, p), p, pr, k.conts[p]);
        assert k.conts[p := k.conts[p]] == k.conts;
        UnreadyTop(k, p);
      } else if k.procs[p].prstate == PR_CURR {
        CurrentInTransit(k);
        LandCore(k, p, pr, k.conts[p]);
        assert k.conts[p := k.conts[p]] == k.conts;
        ReschedInv(WithState(k, p, PR_SUSP));
      }
    }
  }

  lemma UnreadyTop(k: State, p: int)
    requires Inv(k) && p != k.currpid
    ensures var l := Without(k.lists[k.readylist], p);
            Pids(l, |k.procs|)
            && (Top(k) ==> forall i :: 0 <= i < |l| ==> k.procs[l[i]].prprio <= k.procs[k.currpid].prprio)
  {
    PidsWithout(k.lists[k.readylist], |k.procs|, p);
  }

  lemma ResumeInv(k: State, p: int)
    requires Inv(k)
    ensures Inv(Resume(k, p))
  {
    if !BadPid(k, p) && k.procs[p].prstate == PR_SUSP {
      PlacedOff(k, k, p);
      ReadyInv(k, p);
    }
  }

  lemma DeadCore(k: State, p: int)
    requires Core(k, p, -1) && IsPid(k, p) && p != NULLPROC
    ensures Core(Dead(k, p), -1, -1)
  {
    LandCore(k, p, k.procs[p].(prstate := PR_FREE), Running);
  }

  lemma WaiterQueue(k: State, p: int)
    requires Inv(k) && 0 <= p < |k.procs| && k.procs[p].prstate == PR_WAIT && p != NULLPROC
    ensures var s := k.procs[p].prsem;
            && !BadSem(k, s) && 0 <= s < |k.sems|
            && var q, k1 := k.sems[s].squeue, WithCount(k, s, k.sems[s].scount + 1);
               && Shape(k1) && q in k1.lists && p in k1.lists[q] && |k1.procs| == |k.procs|
               && var k2 := Unlinked(k1, q, p);
                  Shape(k2) && IsPid(k2, p) && Dead(k2, p) == Kill(k, p)
  {
    hide ReadySorted, Tame, SemLaw, Mail, Top, Kill, Dead, Unlinked;
    assert PlacedOn(k, -1, k.sems[k.procs[p].prsem].squeue);
    KillWaiterIs(k, p);
  }

  // In which order `kill` frees a waiter and takes it off its queue makes no difference.
  lemma KillWaiterIs(k: State, p: int)
    requires Shape(k) && IsPid(k, p) && k.procs[p].prstate == PR_WAIT && !BadSem(k, k.procs[p].prsem) && p != NULLPROC
    ensures var s := k.procs[p].prsem;
            var k2 := Unlinked(WithCount(k, s, k.sems[s].scount + 1), k.sems[s].squeue, p);
            Shape(k2) && IsPid(k2, p) && Dead(k2, p) == Kill(k, p)
  {
    hide Without;
  }

  lemma KillWaiterInv(k: State, p: int)
    requires Inv(k) && IsPid(k, p) && p != NULLPROC && k.procs[p].prstate == PR_WAIT
    ensures Inv(Kill(k, p))
  {
    hide Placed, ReadySorted, Tame, SemLaw, Mail, Kill, Without;
    KillWaiterIs(k, p);
    var s := k.procs[p].prsem;
    var q := k.sems[s].squeue;
    UnwaitCore(k, s, p, k.sems[s].scount + 1, -1);
    DeadCore(Unlinked(WithCount(k, s, k.sems[s].scount + 1), q, p), p);
  }

  lemma KillSleeperInv(k: State, p: int)
    requires Inv(k) && IsPid(k, p) && p != NULLPROC && k.procs[p].prstate in {PR_SLEEP, PR_RECTIM}
    ensures Inv(Kill(k, p))
  {
    hide Placed, Tame, SemLaw, Mail, OneCurrent, Enroll, FirstKey, IndexOf, RemoveAt, Switch;
    UnsleepCore(k, p, -1);
    DeadCore(Unsleep(k, p), p);
  }

  lemma KillReadyInv(k: State, p: int)
    requires Inv(k) && IsPid(k, p) && p != NULLPROC && k.procs[p].prstate == PR_READY
    ensures Inv(Kill(k, p))
  {
    hide Placed, ReadySorted, Tame, SemLaw, Mail, Separate, OneCurrent, IndexOf, RemoveAt, Resched, Unsleep;
    UnreadyCore(k, p, -1);
    DeadCore(Unlinked(k, k.readylist, p), p);
    UnreadyTop(k, p);
  }

  lemma KillInv(k: State, p: int)
    requires Inv(k) && (p == k.currpid && p != NULLPROC ==> k.ndefers == 0 && CanBlock(k))
    ensures Inv(Kill(k, p))
  {
    hide Placed, ReadySorted, Tame, SemLaw, Mail, Kill;
    if !BadPid(k, p) && p != NULLPROC {
      match k.procs[p].prstate
      case PR_CURR => KillSelfInv(k, p);
      case PR_SLEEP => KillSleeperInv(k, p);
      case PR_RECTIM => KillSleeperInv(k, p);
      case PR_WAIT => KillWaiterInv(k, p);
      case PR_READY => KillReadyInv(k, p);
      case _ => KillIdleInv(k, p);
    } else {
      KillRefused(k, p);
    }
  }

  lemma KillRefused(k: State, p: int)
    requires Shape(k) && (BadPid(k, p) || p == NULLPROC)
    requires IsPid(k, p) && k.procs[p].prstate == PR_WAIT ==> !BadSem(k, k.procs[p].prsem)
    ensures Kill(k, p) == k
  {
  }

  lemma KillSelfInv(k: State, p: int)
    requires Inv(k) && p == k.currpid && p != NULLPROC && k.ndefers == 0 && CanBlock(k)
    ensures Inv(Kill(k, p))
  {
    hide Placed, ReadySorted, Tame, SemLaw, Mail, Separate, Resched, Top;
    CurrentInTransit(k);
    DeadCore(k, p);
    ReschedInv(Dead(k, p));
  }

  // A process on no queue.
  lemma KillIdleInv(k: State, p: int)
    requires Inv(k) && IsPid(k, p) && p != NULLPROC && k.procs[p].prstate in {PR_RECV, PR_SUSP}
    ensures Inv(Kill(k, p))
  {
    hide ReadySorted, Tame, SemLaw;
    PlacedOff(k, k, p);
    DeadCore(k, p);
  }

  lemma CreateInv(k: State, p: int, prio: Prio)
    requires Inv(k) && IsPid(k, p) && k.procs[p].prstate == PR_FREE
    ensures Inv(Create(k, p, prio))
  {
    var k' := Create(k, p, prio);
    forall q | q in k'.lists
      ensures PlacedOn(k', -1, q)
    {
      assert PlacedOn(k, -1, q);
    }
    assert PlacedOn(k, -1, k.readylist);
    NotInEntries(k.lists[k.readylist], p);
  }

  // Runs

  ghost predicate IsTail(e: Event) {
    e in {EvTickTail, EvReceiveTail, EvRecvTimeTail}
  }

  /** When the current process may take a step: a process switched back in first finishes the call it was in, and a
      caller that would block is neither the null process nor under deferral. */
  ghost predicate Enabled(k: State, e: Event)
    requires Shape(k)
  {
    && (match k.conts[k.currpid]
        case Running => !IsTail(e)
        case InReceive => e == EvReceiveTail
        case InRecvTime => e == EvRecvTimeTail
        case InTick => e == EvTickTail)
    && match e
       case EvWait(s) => UsedSem(k, s) && k.sems[s].scount <= 0 ==> MayBlock(k)
       case EvSemCreate(s, c) => !BadSem(k, s) && k.sems[s].sstate == S_FREE && c >= 0
       case EvSignalN(s) => !BadSem(k, s)
       case EvSleep(d) => 0 <= d <= INT32_MAX && (d != 0 ==> MayBlock(k))
       case EvReceive => !HasMessage(k) ==> MayBlock(k)
       case EvRecvTime(m) => m <= INT32_MAX && (m >= 0 && !HasMessage(k) ==> MayBlock(k))
       case EvSuspend(p) => p == k.currpid && p != NULLPROC ==> k.ndefers == 0
       case EvKill(p) => p == k.currpid && p != NULLPROC ==> k.ndefers == 0
       case EvCreate(p, prio) => IsPid(k, p) && k.procs[p].prstate == PR_FREE && prio >= 1
       case _ => true
  }

  ghost function Apply(k: State, e: Event): (k': State)
    requires Inv(k) && Enabled(k, e)
    ensures SameTables(k, k')
  {
    hide Placed, ReadySorted, Tame, Mail, Top;
    assert MayBlock(k) ==> CanBlock(k) by { if MayBlock(k) { MayBlockCan(k); } }
    match e
    case EvYield => Resched(k)
    case EvDeferStart => DeferStart(k)
    case EvDeferStop => DeferStop(k)
    case EvSemCreate(s, c) => SemCreate(k, s, c)
    case EvWait(s) => Wait(k, s)
    case EvSignal(s) => Signal(k, s)
    case EvSignalN(s) => SemUp(k, s)
    case EvSemReset(s, c) => SemReset(k, s, c)
    case EvSemDelete(s) => SemDelete(k, s)
    case EvTick => Tick(k)
    case EvTickTail => TickTail(k)
    case EvSleep(d) => SleepMs(k, d)
    case EvSend(p, m) => Send(k, p, m)
    case EvReceive => Receive(k)
    case EvReceiveTail => ReceiveTail(k)
    case EvRecvClr => TakeMessage(k)
    case EvRecvTime(m) => RecvTime(k, m)
    case EvRecvTimeTail => ReceiveTail(k)
    case EvSuspend(p) => Suspend(k, p)
    case EvResume(p) => Resume(k, p)
    case EvKill(p) => Kill(k, p)
    case EvCreate(p, prio) => Create(k, p, prio)
  }

  lemma WaitStepInv(k: State, e: Event)
    requires Inv(k) && Enabled(k, e) && e.EvWait?
    ensures Inv(Apply(k, e))
  {
    if MayBlock(k) {
      MayBlockCan(k);
    }
    WaitInv(k, e.sem);
  }

  lemma SignalStepInv(k: State, e: Event)
    requires Inv(k) && Enabled(k, e) && (e.EvSignal? || e.EvSignalN?)
    ensures Inv(Apply(k, e))
  {
    if !BadSem(k, e.sem) {
      SemUpInv(k, e.sem);
    }
  }

  lemma QueueApart(k: State, s: int)
    requires Inv(k)
    ensures SemQueueApart(k, s)
  {
  }

  lemma SemResetInv(k: State, s: int, count: int)
    requires Inv(k)
    ensures SemQueueApart(k, s) && Inv(SemReset(k, s, count))
  {
    if count >= 0 && UsedSem(k, s) {
      ReleaseAllWaiters(k, s, count);
    }
  }

  lemma SemDeleteInv(k: State, s: int)
    requires Inv(k)
    ensures SemQueueApart(k, s) && Inv(SemDelete(k, s))
  {
    hide Placed, ReadySorted, Tame, SemLaw, Mail, Top, Emptied, Shape;
    if UsedSem(k, s) {
      ReleaseAllWaiters(k, s, (if k.sems[s].scount < 0 then 0 else k.sems[s].scount) + 1);
    }
  }

  lemma SemCreateInv(k: State, s: int, count: int)
    requires Inv(k) && !BadSem(k, s) && k.sems[s].sstate == S_FREE && count >= 0
    ensures Inv(SemCreate(k, s, count))
  {
    hide Placed;
    PlacedSame(k, SemCreate(k, s, count), -1);
  }

  lemma MessageStepInv(k: State, e: Event)
    requires Inv(k) && Enabled(k, e)
    requires e.EvSend? || e.EvReceive? || e.EvReceiveTail? || e.EvRecvClr? || e.EvRecvTime? || e.EvRecvTimeTail?
    ensures Inv(Apply(k, e))
  {
    hide Placed, ReadySorted, Tame, SemLaw, Mail;
    if e.EvReceive? || e.EvRecvTime? {
      ReceiveStepInv(k, e);
    } else if e.EvSend? {
      SendInv(k, e.pid, e.msg);
    } else if e.EvRecvClr? {
      TakeInv(k);
    } else {
      ReceiveTailInv(k);
    }
  }

  lemma ReceiveStepInv(k: State, e: Event)
    requires Inv(k) && Enabled(k, e) && (e.EvReceive? || e.EvRecvTime?)
    ensures Inv(Apply(k, e))
  {
    hide Placed, ReadySorted, Tame, SemLaw, Mail;
    if MayBlock(k) {
      MayBlockCan(k);
    }
    if e.EvReceive? {
      ReceiveInv(k);
    } else {
      RecvTimeInv(k, e.maxwait);
    }
  }

  lemma ProcessStepInv(k: State, e: Event)
    requires Inv(k) && Enabled(k, e)
    requires e.EvSuspend? || e.EvResume? || e.EvKill? || e.EvCreate?
    ensures Inv(Apply(k, e))
  {
    hide Inv, Suspend, Resume, Kill, Create;
    if MayBlock(k) {
      MayBlockCan(k);
    }
    match e
    case EvSuspend(p) => SuspendInv(k, p);
    case EvResume(p) => ResumeInv(k, p);
    case EvKill(p) => KillInv(k, p);
    case EvCreate(p, prio) => CreateInv(k, p, prio);
  }

  lemma ClockStepInv(k: State, e: Event)
    requires Inv(k) && Enabled(k, e)
    requires e.EvYield? || e.EvDeferStart? || e.EvDeferStop? || e.EvTick? || e.EvTickTail? || e.EvSleep?
    ensures Inv(Apply(k, e))
  {
    match e
    case EvYield => ReschedInv(k);
    case EvDeferStart => CoreSame(k, DeferStart(k), -1, -1);
    case EvDeferStop => DeferStopInv(k);
    case EvTick => TickInv(k);
    case EvTickTail => TickTailInv(k);
    case EvSleep(d) => if MayBlock(k) { MayBlockCan(k); } SleepInv(k, d);
  }

  /** Every system call keeps the global invariant. */
  lemma ApplyInv(k: State, e: Event)
    requires Inv(k) && Enabled(k, e)
    ensures Inv(Apply(k, e))
  {
    if e.EvWait? {
      WaitStepInv(k, e);
    } else if e.EvSemCreate? {
      SemCreateInv(k, e.sem, e.count);
    } else if e.EvSignal? || e.EvSignalN? {
      SignalStepInv(k, e);
    } else if e.EvSemReset? {
      SemResetInv(k, e.sem, e.count);
    } else if e.EvSemDelete? {
      SemDeleteInv(k, e.sem);
    } else if e.EvSuspend? || e.EvResume? || e.EvKill? || e.EvCreate? {
      ProcessStepInv(k, e);
    } else if e.EvYield? || e.EvDeferStart? || e.EvDeferStop? || e.EvTick? || e.EvTickTail? || e.EvSleep? {
      ClockStepInv(k, e);
    } else {
      MessageStepInv(k, e);
    }
  }

  /** One step of the system. Every step keeps the global invariant. */
  ghost function Step(k: State, e: Event): (k': State)
    requires Inv(k) && Enabled(k, e)
    ensures Inv(k') && SameTables(k, k')
  {
    ApplyInv(k, e);
    Apply(k, e)
  }

  // What a step is, event by event

  lemma InvShape(k: State)
    requires Inv(k)
    ensures Shape(k)
  {
    hide Placed, ReadySorted, Tame, SemLaw, Mail, Top;
  }

  lemma InvApart(k: State)
    requires Inv(k)
    ensures Shape(k) && k.readylist != k.sleepq && k.ndefers >= 0
    ensures forall s :: 0 <= s < |k.sems| ==> k.sems[s].squeue != k.readylist && k.sems[s].squeue != k.sleepq
  {
    hide Placed, ReadySorted, Tame, SemLaw, Mail, Top;
  }

  lemma StepWait(k: State, s: int)
    requires Inv(k) && Enabled(k, EvWait(s))
    ensures UsedSem(k, s) && k.sems[s].scount <= 0 ==> MayBlock(k) && CanBlock(k)
    ensures k.conts[k.currpid] == Running && Step(k, EvWait(s)) == Wait(k, s)
  {
    hide Placed, ReadySorted, Tame, SemLaw, Mail, Top, Wait;
    if MayBlock(k) { MayBlockCan(k); }
  }

  lemma SomeoneWaits(k: State, s: int)
    requires Inv(k) && !BadSem(k, s) && k.sems[s].scount < 0
    ensures k.lists[k.sems[s].squeue] != []
  {
    hide Placed, ReadySorted, Tame, Mail, Top;
  }

  lemma StepSignal(k: State, s: int)
    requires Inv(k) && Enabled(k, EvSignal(s))
    ensures !BadSem(k, s) && k.sems[s].scount < 0 ==> k.lists[k.sems[s].squeue] != []
    ensures Step(k, EvSignal(s)) == Signal(k, s)
  {
    hide Placed, ReadySorted, Tame, SemLaw, Mail, Top, SemUp;
    if !BadSem(k, s) && k.sems[s].scount < 0 { SomeoneWaits(k, s); }
  }

  lemma StepSignalN(k: State, s: int)
    requires Inv(k) && Enabled(k, EvSignalN(s))
    ensures !BadSem(k, s) && (k.sems[s].scount < 0 ==> k.lists[k.sems[s].squeue] != [])
    ensures Step(k, EvSignalN(s)) == SemUp(k, s)
  {
    hide Placed, ReadySorted, Tame, SemLaw, Mail, Top, SemUp;
    if k.sems[s].scount < 0 { SomeoneWaits(k, s); }
  }

  lemma StepSemCreate(k: State, s: int, count: int)
    requires Inv(k) && Enabled(k, EvSemCreate(s, count))
    ensures !BadSem(k, s) && k.sems[s].sstate == S_FREE && count >= 0
    ensures Step(k, EvSemCreate(s, count)) == SemCreate(k, s, count)
  {
    hide Placed, ReadySorted, Tame, SemLaw, Mail, Top, SemCreate;
  }

  lemma StepReset(k: State, s: int, count: int)
    requires Inv(k) && Enabled(k, EvSemReset(s, count))
    ensures SemQueueApart(k, s) && Step(k, EvSemReset(s, count)) == SemReset(k, s, count)
  {
    hide Placed, ReadySorted, Tame, SemLaw, Mail, Top, SemReset;
  }

  lemma StepDelete(k: State, s: int)
    requires Inv(k) && Enabled(k, EvSemDelete(s))
    ensures SemQueueApart(k, s) && Step(k, EvSemDelete(s)) == SemDelete(k, s)
  {
    hide Placed, ReadySorted, Tame, SemLaw, Mail, Top, SemDelete;
  }

  lemma StepYield(k: State)
    requires Inv(k) && Enabled(k, EvYield)
    ensures CanResched(k) && Step(k, EvYield) == Resched(k)
  {
    hide Placed, ReadySorted, Tame, SemLaw, Mail, Top, Resched;
  }

  lemma StepDeferStart(k: State)
    requires Inv(k) && Enabled(k, EvDeferStart)
    ensures Step(k, EvDeferStart) == DeferStart(k)
  {
    hide Placed, ReadySorted, Tame, SemLaw, Mail, Top, DeferStart;
  }

  lemma StepDeferStop(k: State)
    requires Inv(k) && Enabled(k, EvDeferStop)
    ensures CanStop(k) && Step(k, EvDeferStop) == DeferStop(k)
  {
    hide Placed, ReadySorted, Tame, SemLaw, Mail, Top, DeferStop, Resched;
  }

  lemma StepTick(k: State)
    requires Inv(k) && Enabled(k, EvTick)
    ensures k.readylist != k.sleepq && k.ndefers >= 0 && k.conts[k.currpid] == Running && Step(k, EvTick) == Tick(k)
  {
    hide Placed, ReadySorted, Tame, SemLaw, Mail, Top, Tick;
  }

  lemma StepTickTail(k: State)
    requires Inv(k) && Enabled(k, EvTickTail)
    ensures CanResched(k) && k.conts[k.currpid] == InTick && Step(k, EvTickTail) == TickTail(k)
  {
    hide Placed, ReadySorted, Tame, SemLaw, Mail, Top, TickTail, Resched;
  }

  lemma StepSleep(k: State, d: int)
    requires Inv(k) && Enabled(k, EvSleep(d))
    ensures 0 <= d <= INT32_MAX && CanResched(k) && k.readylist != k.sleepq && k.conts[k.currpid] == Running
    ensures d != 0 ==> MayBlock(k) && CanBlock(k)
    ensures Step(k, EvSleep(d)) == SleepMs(k, d)
  {
    hide Placed, ReadySorted, Tame, SemLaw, Mail, Top, SleepMs;
    if MayBlock(k) { MayBlockCan(k); }
  }

  lemma StepRecvTime(k: State, m: int)
    requires Inv(k) && Enabled(k, EvRecvTime(m))
    ensures m <= INT32_MAX && k.readylist != k.sleepq && k.conts[k.currpid] == Running
    ensures m >= 0 && !HasMessage(k) ==> MayBlock(k) && CanBlock(k)
    ensures Step(k, EvRecvTime(m)) == RecvTime(k, m)
  {
    hide Placed, ReadySorted, Tame, SemLaw, Mail, Top, RecvTime;
    if MayBlock(k) { MayBlockCan(k); }
  }

  lemma StepReceive(k: State)
    requires Inv(k) && Enabled(k, EvReceive)
    ensures k.conts[k.currpid] == Running && (!HasMessage(k) ==> MayBlock(k) && CanBlock(k))
    ensures Step(k, EvReceive) == Receive(k)
  {
    hide Placed, ReadySorted, Tame, SemLaw, Mail, Top, Receive;
    if MayBlock(k) { MayBlockCan(k); }
  }

  lemma StepSend(k: State, p: int, m: int)
    requires Inv(k) && Enabled(k, EvSend(p, m))
    ensures Step(k, EvSend(p, m)) == Send(k, p, m)
  {
    hide Placed, ReadySorted, Tame, SemLaw, Mail, Top, Send;
  }

  lemma StepReceiveTail(k: State)
    requires Inv(k) && Enabled(k, EvReceiveTail)
    ensures k.conts[k.currpid] == InReceive && Step(k, EvReceiveTail) == ReceiveTail(k)
  {
    hide Placed, ReadySorted, Tame, SemLaw, Mail, Top, ReceiveTail;
  }

  lemma StepRecvTimeTail(k: State)
    requires Inv(k) && Enabled(k, EvRecvTimeTail)
    ensures k.conts[k.currpid] == InRecvTime && Step(k, EvRecvTimeTail) == ReceiveTail(k)
  {
    hide Placed, ReadySorted, Tame, SemLaw, Mail, Top, ReceiveTail;
  }

  lemma StepRecvClr(k: State)
    requires Inv(k) && Enabled(k, EvRecvClr)
    ensures k.conts[k.currpid] == Running && Step(k, EvRecvClr) == TakeMessage(k)
  {
    hide Placed, ReadySorted, Tame, SemLaw, Mail, Top, TakeMessage;
  }

  lemma StepSuspend(k: State, p: int)
    requires Inv(k) && Enabled(k, EvSuspend(p))
    ensures p == k.currpid && p != NULLPROC ==> k.ndefers == 0 && CanBlock(k)
    ensures IsPid(k, p) && k.procs[p].prstate == PR_CURR ==> p == k.currpid
    ensures Step(k, EvSuspend(p)) == Suspend(k, p)
  {
    hide Placed, ReadySorted, Tame, SemLaw, Mail, Top, Suspend;
    if MayBlock(k) { MayBlockCan(k); }
  }

  lemma StepKill(k: State, p: int)
    requires Inv(k) && Enabled(k, EvKill(p))
    ensures p == k.currpid && p != NULLPROC ==> k.ndefers == 0 && CanBlock(k)
    ensures IsPid(k, p) && k.procs[p].prstate == PR_CURR ==> p == k.currpid
    ensures IsPid(k, p) && k.procs[p].prstate == PR_WAIT ==> !BadSem(k, k.procs[p].prsem)
    ensures Step(k, EvKill(p)) == Kill(k, p)
  {
    hide Placed, ReadySorted, Tame, SemLaw, Mail, Top, Kill;
    if MayBlock(k) { MayBlockCan(k); }
  }

  lemma StepResume(k: State, p: int)
    requires Inv(k) && Enabled(k, EvResume(p))
    ensures Step(k, EvResume(p)) == Resume(k, p)
  {
    hide Placed, ReadySorted, Tame, SemLaw, Mail, Top, Resume;
  }

  lemma StepCreate(k: State, p: int, prio: Prio)
    requires Inv(k) && Enabled(k, EvCreate(p, prio))
    ensures IsPid(k, p) && k.procs[p].prstate == PR_FREE && Step(k, EvCreate(p, prio)) == Create(k, p, prio)
  {
    hide Placed, ReadySorted, Tame, SemLaw, Mail, Top, Create;
  }

  /** A run: each event is enabled where it happens. */
  ghost predicate Runs(k: State, es: seq<Event>)
    requires Inv(k)
    decreases |es|
  {
    if es == [] then true
    else Enabled(k, es[0]) && Runs(Step(k, es[0]), es[1..])
  }

  ghost function Exec(k: State, es: seq<Event>): (k': State)
    requires Inv(k) && Runs(k, es)
    ensures Inv(k') && SameTables(k, k')
    decreases |es|
  {
    if es == [] then k else Exec(Step(k, es[0]), es[1..])
  }
}
