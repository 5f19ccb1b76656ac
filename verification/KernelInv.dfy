/** The global invariant of the scheduler, and how the primitive moves between queues keep it. */
module KernelInv {
  import opened Types
  import opened Lists
  import opened Queue
  import opened Delta
  import opened KernelState

  /** The queue on which a process in its state belongs; EMPTY when it belongs on none. */
  ghost function Home(k: State, p: int): int
    requires IsPid(k, p)
  {
    match k.procs[p].prstate
    case PR_READY => k.readylist
    case PR_SLEEP => k.sleepq
    case PR_RECTIM => k.sleepq
    case PR_WAIT => if BadSem(k, k.procs[p].prsem) then EMPTY else k.sems[k.procs[p].prsem].squeue
    case _ => EMPTY
  }

  ghost predicate Separate(k: State) {
    && EMPTY !in k.lists && k.readylist != k.sleepq
    && (forall s :: 0 <= s < |k.sems| ==> k.sems[s].squeue != k.readylist && k.sems[s].squeue != k.sleepq)
    && (forall s, t :: 0 <= s < t < |k.sems| ==> k.sems[s].squeue != k.sems[t].squeue)
  }

  /** Queue q holds exactly the processes whose home it is, once each; process x is in transit. */
  ghost predicate PlacedOn(k: State, x: int, q: int)
    requires Shape(k) && q in k.lists
  {
    NoDup(k.lists[q]) && forall p :: 0 <= p < |k.procs| ==> (p in k.lists[q] <==> p != x && Home(k, p) == q)
  }

  ghost predicate Placed(k: State, x: int)
    requires Shape(k)
  {
    forall q :: q in k.lists ==> PlacedOn(k, x, q)
  }

  ghost predicate KeysDown(l: seq<int>, keys: seq<int>)
    requires Pids(l, |keys|)
  {
    forall i, j :: 0 <= i < j < |l| ==> keys[l[i]] >= keys[l[j]]
  }

  ghost predicate ReadySorted(k: State)
    requires Shape(k)
  {
    var l := k.lists[k.readylist];
    KeysDown(l, k.keys) && forall i :: 0 <= i < |l| ==> k.keys[l[i]] == k.procs[l[i]].prprio
  }

  /** A negative count is the number of waiters; otherwise there are none, as on an entry that was never created.
      Semaphore x is being changed. */
  ghost predicate SemLaw(k: State, x: int)
    requires Shape(k)
  {
    forall s :: 0 <= s < |k.sems| && s != x ==>
      && |k.lists[k.sems[s].squeue]| == (if k.sems[s].scount < 0 then -k.sems[s].scount else 0)
      && (k.sems[s].sstate == S_FREE ==> k.sems[s].scount >= 0)
  }

  /** What the state of a process says about its mailbox and about the code it will resume with. */
  ghost predicate MailOk(p: Proc, c: Cont) {
    match p.prstate
    case PR_RECV => !p.prhasmsg && c == InReceive
    case PR_RECTIM => !p.prhasmsg && c == InRecvTime
    case PR_FREE => c == Running
    case PR_SLEEP => c == Running
    case PR_WAIT => c == Running
    case _ => c == InReceive ==> p.prhasmsg
  }

  ghost predicate Mail(k: State, x: int)
    requires Shape(k)
  {
    forall p :: 0 <= p < |k.procs| && p != x ==> MailOk(k.procs[p], k.conts[p])
  }

  ghost predicate OneCurrent(k: State) {
    && (forall p :: 0 <= p < |k.procs| && k.procs[p].prstate == PR_CURR ==> p == k.currpid)
    && (forall p :: 0 <= p < |k.procs| && k.procs[p].prstate == PR_WAIT ==> !BadSem(k, k.procs[p].prsem))
    && |k.procs| > 0 && k.procs[NULLPROC].prstate in {PR_READY, PR_CURR}
    && k.ndefers >= 0 && 1 <= k.preempt <= QUANTUM
  }

  /** The invariant between kernel primitives; x is a process in transit (or -1), y a semaphore (or -1). */
  ghost predicate Core(k: State, x: int, y: int) {
    && Shape(k) && Separate(k) && OneCurrent(k)
    && Placed(k, x) && ReadySorted(k) && Tame(k.lists[k.sleepq], k.keys) && SemLaw(k, y) && Mail(k, x)
  }

  ghost predicate Top(k: State)
    requires Shape(k)
  {
    var l := k.lists[k.readylist];
    forall i :: 0 <= i < |l| ==> k.procs[l[i]].prprio <= k.procs[k.currpid].prprio
  }

  /** The invariant at every point where some process executes outside the kernel. */
  ghost predicate Inv(k: State) {
    && Core(k, -1, -1)
    && k.procs[k.currpid].prstate == PR_CURR
    && (k.ndefers == 0 || !k.attempt ==> Top(k))
  }

  // Placement

  lemma PlacedIn(k: State, k': State, p: int, q: int)
    requires Shape(k) && Shape(k') && |k'.procs| == |k.procs| && IsPid(k, p) && q in k.lists
    requires Placed(k, p) && Home(k', p) == q
    requires forall r :: 0 <= r < |k.procs| && r != p ==> Home(k', r) == Home(k, r)
    requires q in k'.lists && k'.lists == k.lists[q := k'.lists[q]] && NoDup(k'.lists[q])
    requires forall x :: x in k'.lists[q] <==> x == p || x in k.lists[q]
    ensures Placed(k', -1)
  {
    forall r | r in k'.lists
      ensures PlacedOn(k', -1, r)
    {
      assert PlacedOn(k, p, r);
    }
  }

  lemma PlacedOut(k: State, k': State, p: int)
    requires Shape(k) && Shape(k') && |k'.procs| == |k.procs| && IsPid(k, p) && Home(k, p) in k.lists
    requires Placed(k, -1)
    requires forall r :: 0 <= r < |k.procs| && r != p ==> Home(k', r) == Home(k, r)
    requires k'.lists == k.lists[Home(k, p) := Without(k.lists[Home(k, p)], p)]
    ensures Placed(k', p)
  {
    WithoutMembers(k.lists[Home(k, p)], p);
    forall r | r in k'.lists
      ensures PlacedOn(k', p, r)
    {
      assert PlacedOn(k, -1, r);
    }
  }

  // A process that belongs on no queue may be taken as in transit, and back.
  lemma PlacedOff(k: State, k': State, p: int)
    requires Shape(k) && Shape(k') && |k'.procs| == |k.procs| && IsPid(k, p)
    requires (Placed(k, -1) && Home(k, p) !in k.lists) || (Placed(k, p) && Home(k', p) !in k.lists)
    requires forall r :: 0 <= r < |k.procs| && r != p ==> Home(k', r) == Home(k, r)
    requires k'.lists == k.lists
    ensures Placed(k, -1) && Home(k, p) !in k.lists ==> Placed(k', p)
    ensures Placed(k, p) && Home(k', p) !in k.lists ==> Placed(k', -1)
  {
    forall r | r in k'.lists && Placed(k, -1) && Home(k, p) !in k.lists
      ensures PlacedOn(k', p, r)
    {
      assert PlacedOn(k, -1, r);
    }
    forall r | r in k'.lists && Placed(k, p) && Home(k', p) !in k.lists
      ensures PlacedOn(k', -1, r)
    {
      assert PlacedOn(k, p, r);
    }
  }

  // The ready list

  lemma {:induction false} PrioIndexSplits(l: seq<int>, keys: seq<int>, key: int)
    requires Pids(l, |keys|) && KeysDown(l, keys)
    ensures var i := PrioIndex(l, keys, key);
            && (forall j :: 0 <= j < i ==> keys[l[j]] >= key)
            && (forall j :: i <= j < |l| ==> keys[l[j]] < key)
  {
    if l != [] && keys[l[0]] >= key {
      PrioIndexSplits(l[1..], keys, key);
      var i := PrioIndex(l, keys, key);
      forall j | i <= j < |l| ensures keys[l[j]] < key { assert l[j] == l[1..][j - 1]; }
      forall j | 1 <= j < i ensures keys[l[j]] >= key { assert l[j] == l[1..][j - 1]; }
    }
  }

  lemma InsertKeysDown(l: seq<int>, keys: seq<int>, p: int, key: int)
    requires Pids(l, |keys|) && KeysDown(l, keys) && 0 <= p < |keys| && p !in l
    ensures var m := InsertAt(l, PrioIndex(l, keys, key), p);
            Pids(m, |keys|) && KeysDown(m, keys[p := key])
  {
    var i := PrioIndex(l, keys, key);
    var m, keys' := InsertAt(l, i, p), keys[p := key];
    PidsInsert(l, |keys|, i, p);
    PrioIndexSplits(l, keys, key);
    forall j | 0 <= j < |l| ensures keys'[l[j]] == keys[l[j]] { assert l[j] in l; }
    forall a, b | 0 <= a < b < |m|
      ensures keys'[m[a]] >= keys'[m[b]]
    {
      InsertEntry(l, i, p, a);
      InsertEntry(l, i, p, b);
    }
  }

  lemma EnrollSorted(k: State, p: int)
    requires Shape(k) && IsPid(k, p) && ReadySorted(k) && p !in k.lists[k.readylist]
    ensures ReadySorted(Enroll(k, p))
  {
    var l, prio := k.lists[k.readylist], k.procs[p].prprio;
    var i, k' := PrioIndex(l, k.keys, prio), Enroll(k, p);
    var m := InsertAt(l, i, p);
    InsertKeysDown(l, k.keys, p, prio);
    forall j | 0 <= j < |m|
      ensures k'.keys[m[j]] == k'.procs[m[j]].prprio
    {
      InsertEntry(l, i, p, j);
      if j != i {
        assert m[j] in l;
      }
    }
  }

  lemma TameFrame(l: seq<int>, keys: seq<int>, p: int, v: int)
    requires Tame(l, keys) && 0 <= p < |keys| && p !in l
    ensures Tame(l, keys[p := v])
  {
    AgendaUpdate(l, keys, p, v, 0);
    forall j | 0 <= j < |l| ensures l[j] != p { assert l[j] in l; }
  }

  /** A process in transit that is made ready arrives on the ready list. */
  lemma EnrollCore(k: State, p: int, y: int)
    requires Core(k, p, y) && IsPid(k, p)
    requires k.conts[p] == InReceive ==> k.procs[p].prhasmsg
    ensures Core(Enroll(k, p), -1, y)
  {
    var k' := Enroll(k, p);
    var l := k.lists[k.readylist];
    assert PlacedOn(k, p, k.readylist) && PlacedOn(k, p, k.sleepq);
    EnrollSorted(k, p);
    InsertMembers(l, PrioIndex(l, k.keys, k.procs[p].prprio), p);
    InsertNoDup(l, PrioIndex(l, k.keys, k.procs[p].prprio), p);
    PlacedIn(k, k', p, k.readylist);
    TameFrame(k.lists[k.sleepq], k.keys, p, k.procs[p].prprio);
  }

  // Context switches

  lemma SomeoneReady(k: State, y: int)
    requires Core(k, -1, y) && (k.currpid != NULLPROC || k.procs[k.currpid].prstate != PR_CURR)
    ensures k.lists[k.readylist] != []
  {
    assert PlacedOn(k, -1, k.readylist);
    assert NULLPROC in k.lists[k.readylist];
  }

  lemma TailSorted(l: seq<int>, keys: seq<int>)
    requires Pids(l, |keys|) && KeysDown(l, keys) && l != []
    ensures KeysDown(l[1..], keys)
    ensures forall i :: 0 <= i < |l| - 1 ==> keys[l[1..][i]] <= keys[l[0]]
  {
  }

  lemma SwitchSorted(k: State)
    requires Shape(k) && ReadySorted(k) && k.lists[k.readylist] != [] && NoDup(k.lists[k.readylist])
    ensures ReadySorted(Switch(k)) && Top(Switch(k))
  {
    var l := k.lists[k.readylist];
    TailSorted(l, k.keys);
    NoDupTail(l);
    forall i | 0 <= i < |l| - 1
      ensures l[1..][i] != l[0]
    {
      assert l[1..][i] in l[1..];
    }
  }

  lemma SwitchCore(k: State)
    requires Core(k, -1, -1) && k.procs[k.currpid].prstate != PR_CURR && k.lists[k.readylist] != []
    ensures Core(Switch(k), -1, -1) && Top(Switch(k))
  {
    var l := k.lists[k.readylist];
    var p, k' := l[0], Switch(k);
    assert p in l && PlacedOn(k, -1, k.readylist);
    WithoutHead(l);
    var mid := k.(lists := k.lists[k.readylist := l[1..]]);
    PlacedOut(k, mid, p);
    PlacedOff(mid, k', p);
    SwitchSorted(k);
  }

  lemma AboveFront(k: State)
    requires Shape(k) && ReadySorted(k) && k.procs[k.currpid].prprio > FirstKey(k)
    ensures Top(k)
  {
    var l := k.lists[k.readylist];
    forall i | 0 <= i < |l|
      ensures k.procs[l[i]].prprio <= k.procs[k.currpid].prprio
    {
      assert k.keys[l[i]] <= k.keys[l[0]];
    }
  }

  // Placement does not depend on the counters of the dispatcher.
  lemma PlacedSame(k: State, k': State, x: int)
    requires Shape(k) && Shape(k') && Placed(k, x) && k'.procs == k.procs && k'.lists == k.lists
    requires k'.readylist == k.readylist && k'.sleepq == k.sleepq
    requires |k'.sems| == |k.sems| && forall s :: 0 <= s < |k.sems| ==> k'.sems[s].squeue == k.sems[s].squeue
    ensures Placed(k', x)
  {
    forall q | q in k'.lists
      ensures PlacedOn(k', x, q)
    {
      assert PlacedOn(k, x, q);
    }
  }

  lemma CoreSame(k: State, k': State, x: int, y: int)
    requires Core(k, x, y) && k'.ndefers >= 0 && 1 <= k'.preempt <= QUANTUM
    requires k' == k.(ndefers := k'.ndefers, attempt := k'.attempt, preempt := k'.preempt)
    ensures Core(k', x, y)
  {
    PlacedSame(k, k', x);
  }

  // Rescheduling puts the current process back among the ready ones first.
  lemma EnrollCurrent(k: State)
    requires Core(k, -1, -1) && k.procs[k.currpid].prstate == PR_CURR
    ensures var k' := Enroll(k, k.currpid);
            Core(k', -1, -1) && k'.lists[k'.readylist] != [] && k'.procs[k'.currpid].prstate == PR_READY
  {
    PlacedOff(k, k, k.currpid);
    EnrollCore(k, k.currpid, -1);
  }

  /** Rescheduling restores the full invariant, whoever was current. */
  lemma ReschedInv(k: State)
    requires Core(k, -1, -1)
    requires k.ndefers == 0 || k.procs[k.currpid].prstate == PR_CURR
    ensures CanResched(k) && Inv(Resched(k))
  {
    hide Placed, Tame, SemLaw, Mail, Separate;
    if k.ndefers > 0 {
      CoreSame(k, k.(attempt := true), -1, -1);
    } else if k.procs[k.currpid].prstate != PR_CURR {
      SomeoneReady(k, -1);
      SwitchCore(k);
    } else if k.procs[k.currpid].prprio > FirstKey(k) {
      AboveFront(k);
    } else {
      EnrollCurrent(k);
      SwitchCore(Enroll(k, k.currpid));
    }
  }

  lemma ReadyInv(k: State, p: int)
    requires Core(k, p, -1) && IsPid(k, p) && p != k.currpid
    requires k.procs[k.currpid].prstate == PR_CURR
    requires k.conts[p] == InReceive ==> k.procs[p].prhasmsg
    ensures Inv(Ready(k, p))
  {
    EnrollCore(k, p, -1);
    ReschedInv(Enroll(k, p));
  }

  // Leaving a queue

  lemma UnsleepCore(k: State, p: int, y: int)
    requires Core(k, -1, y) && IsPid(k, p) && Home(k, p) == k.sleepq
    ensures Core(Unsleep(k, p), p, y)
  {
    var l, k' := k.lists[k.sleepq], Unsleep(k, p);
    assert PlacedOn(k, -1, k.sleepq) && PlacedOn(k, -1, k.readylist);
    PlacedOut(k, k', p);
    UnsleepTame(l, k.keys, p);
    var r := k.lists[k.readylist];
    forall i | 0 <= i < |r|
      ensures k'.keys[r[i]] == k.keys[r[i]]
    {
      assert r[i] in r && r[i] !in l;
      assert forall j :: 0 <= j < |l| ==> l[j] in l;
    }
  }

  lemma WithoutSorted(l: seq<int>, keys: seq<int>, p: int)
    requires Pids(l, |keys|) && KeysDown(l, keys)
    ensures Pids(Without(l, p), |keys|) && KeysDown(Without(l, p), keys)
  {
    PidsWithout(l, |keys|, p);
  }

  lemma UnreadyCore(k: State, p: int, y: int)
    requires Core(k, -1, y) && IsPid(k, p) && Home(k, p) == k.readylist
    ensures Core(Unlinked(k, k.readylist, p), p, y)
  {
    var l, k' := k.lists[k.readylist], Unlinked(k, k.readylist, p);
    PlacedOut(k, k', p);
    WithoutSorted(l, k.keys, p);
    assert PlacedOn(k, -1, k.readylist);
    WithoutMembers(l, p);
    var m := Without(l, p);
    forall i | 0 <= i < |m|
      ensures k.keys[m[i]] == k.procs[m[i]].prprio
    {
      assert m[i] in m && m[i] in l;
    }
  }

  /** Taking a waiter off the queue of semaphore s, its count being adjusted to c. */
  lemma UnwaitCore(k: State, s: int, p: int, c: int, y: int)
    requires Core(k, -1, y) && IsPid(k, p) && !BadSem(k, s) && Home(k, p) == k.sems[s].squeue
    requires s == y || c == k.sems[s].scount + 1
    ensures Core(Unlinked(WithCount(k, s, c), k.sems[s].squeue, p), p, y)
  {
    var q := k.sems[s].squeue;
    var k' := Unlinked(WithCount(k, s, c), q, p);
    PlacedOut(k, k', p);
    assert PlacedOn(k, -1, q);
    WithoutMembers(k.lists[q], p);
    assert |k.lists[q]| > 0;
  }

  // Joining a queue

  // The ready list does not see the keys of the sleep queue.
  lemma GoToSleepReady(k: State, delay: int, s: PrState)
    requires Core(k, k.currpid, -1)
    ensures ReadySorted(GoToSleep(k, delay, s))
  {
    hide Tame, SemLaw, Mail, InsertAt, DeltaIndex;
    var l, p, k' := k.lists[k.sleepq], k.currpid, GoToSleep(k, delay, s);
    assert PlacedOn(k, p, k.sleepq) && PlacedOn(k, p, k.readylist);
    var r := k.lists[k.readylist];
    forall i | 0 <= i < |r|
      ensures k'.keys[r[i]] == k.keys[r[i]] && r[i] != p
    {
      assert r[i] in r && r[i] !in l && r[i] != p;
      assert forall j :: 0 <= j < |l| ==> l[j] in l;
    }
  }

  lemma GoToSleepPlaced(k: State, delay: int, s: PrState)
    requires Core(k, k.currpid, -1) && 0 <= delay <= INT32_MAX && s in {PR_SLEEP, PR_RECTIM}
    ensures var k' := GoToSleep(k, delay, s); Placed(k', -1) && Tame(k'.lists[k'.sleepq], k'.keys)
  {
    hide ReadySorted, SemLaw, Mail, DeltaIndex, DeltaKeys;
    var l, p, k' := k.lists[k.sleepq], k.currpid, GoToSleep(k, delay, s);
    assert PlacedOn(k, p, k.sleepq);
    InsertTame(l, k.keys, p, delay);
    InsertMembers(l, DeltaIndex(l, k.keys, delay), p);
    PlacedIn(k, k', p, k.sleepq);
  }

  lemma GoToSleepCore(k: State, delay: int, s: PrState, c: Cont)
    requires Core(k, k.currpid, -1) && 0 <= delay <= INT32_MAX && k.currpid != NULLPROC
    requires (s == PR_SLEEP && c == Running) || (s == PR_RECTIM && c == InRecvTime && !HasMessage(k))
    ensures Core(WithCont(GoToSleep(k, delay, s), k.currpid, c), -1, -1)
  {
    hide ReadySorted, Placed, Tame, InsertAt, DeltaIndex, DeltaKeys;
    var k1 := GoToSleep(k, delay, s);
    GoToSleepReady(k, delay, s);
    GoToSleepPlaced(k, delay, s);
    ContCore(k1, WithCont(k1, k.currpid, c));
  }

  // Placement, the ready list and the sleep queue do not depend on the code to be resumed.
  lemma ContCore(k: State, k': State)
    requires Shape(k) && Shape(k') && k' == k.(conts := k'.conts)
    ensures Placed(k, -1) ==> Placed(k', -1)
    ensures ReadySorted(k) ==> ReadySorted(k')
  {
    if Placed(k, -1) { PlacedSame(k, k', -1); }
  }

  lemma BlockOnCore(k: State, s: int)
    requires Core(k, k.currpid, -1) && UsedSem(k, s) && k.sems[s].scount <= 0 && k.currpid != NULLPROC
    requires k.conts[k.currpid] == Running
    ensures Core(Blocked(k, s), -1, -1)
  {
    var q, p, k' := k.sems[s].squeue, k.currpid, Blocked(k, s);
    assert PlacedOn(k, p, q) && PlacedOn(k, p, k.readylist);
    InsertNoDup(k.lists[q], |k.lists[q]|, p);
    assert InsertAt(k.lists[q], |k.lists[q]|, p) == k.lists[q] + [p];
    PlacedIn(k, k', p, q);
    forall i | 0 <= i < |k.lists[k.readylist]|
      ensures k.lists[k.readylist][i] != p
    {
      assert k.lists[k.readylist][i] in k.lists[k.readylist];
    }
  }
}
