/** The system calls of Chapters 5 to 8 and 13, on the kernel's global tables. Each is proved to change the state
    exactly as its specification function in KernelState says. */
module Kernel {
  import opened Types
  import opened Lists
  import opened Queue
  import opened Delta
  import QueueTable
  import K = KernelState
  import opened KernelInv
  import KernelRuns

  // The argument of `resched_cntl`; any other integer is refused.
  datatype Defer = DEFER_START | DEFER_STOP | DEFER_OTHER

  // What `recvtime` returns, or that it has put its caller to sleep.
  datatype Received = Message(msg: int) | TIMEOUT | REFUSED | Blocked

  class Xinu {
    const proctab: array<Proc>
    const semtab: array<Sentry>
    const qt: QueueTable.QueueTab
    var readylist: int
    var sleepq: int
    var currpid: int
    var preempt: int
    var ndefers: int
    var attempt: bool

    // Where the searches for a free semaphore and for a free process begin.
    var nextsem: nat
    var nextpid: nat

    // For each process, the code it still has to run when it is switched back in (its saved stack).
    ghost var conts: seq<K.Cont>

    /** `sysinit`: every table empty but for the null process, one queue per semaphore, the ready list, the sleep
        queue. Establishes the global invariant. */
    constructor Sysinit(nproc: nat, nqent: nat, nsem: nat)
      requires 0 < nproc && nproc + 2 * (nsem + 2) <= nqent
      ensures Valid() && fresh(proctab) && fresh(semtab) && fresh(qt) && fresh(qt.queuetab)
      ensures Inv(View()) && currpid == NULLPROC && proctab.Length == nproc && semtab.Length == nsem
      ensures preempt == QUANTUM && ndefers == 0 && !attempt && nextsem == 0 && nextpid == 1
      ensures forall p :: 0 <= p < nproc ==>
        && proctab[p].prstate == (if p == NULLPROC then PR_CURR else PR_FREE) && proctab[p].prprio == 0
        && !proctab[p].prhasmsg && conts[p] == K.Running
      ensures forall s :: 0 <= s < nsem ==> semtab[s].sstate == S_FREE && semtab[s].scount == 0
      ensures forall q :: q in qt.lists ==> qt.lists[q] == []
    {
      hide Placed, ReadySorted, Tame, SemLaw, Mail, Separate, OneCurrent, Top, Apart, Linked, K.Shape;
      var procs := new Proc[nproc](i => Proc(if i == NULLPROC then PR_CURR else PR_FREE, 0, -1, 0, false));
      semtab := new Sentry[nsem](_ => Sentry(S_FREE, 0, EMPTY));
      proctab := procs;
      qt := new QueueTable.QueueTab(nproc, nqent, procs);
      currpid, preempt, ndefers, attempt := NULLPROC, QUANTUM, 0, false;
      nextsem, nextpid := 0, 1;
      conts := seq(nproc, _ => K.Running);
      new;
      AllocateQueues();
      InitialState(View());
    }

    // The semaphore loop of `sysinit`.
    method InitSems()
      requires qt.Valid() && qt.nextqid == qt.nproc && qt.lists == map[]
      requires qt.nproc + 2 * semtab.Length <= qt.nqent
      modifies semtab, qt`nextqid, qt`lists, qt.queuetab
      ensures qt.Valid() && qt.nextqid == qt.nproc + 2 * semtab.Length && qt.keys == old(qt.keys)
      ensures forall s :: 0 <= s < semtab.Length ==> semtab[s] == Sentry(S_FREE, 0, qt.nproc + 2 * s)
      ensures forall q :: q in qt.lists ==> qt.lists[q] == []
    {
      var i := 0;
      while i < semtab.Length
        invariant 0 <= i <= semtab.Length && qt.Valid() && qt.nextqid == qt.nproc + 2 * i && qt.keys == old(qt.keys)
        invariant forall s :: 0 <= s < i ==> semtab[s] == Sentry(S_FREE, 0, qt.nproc + 2 * s)
        invariant forall q :: q in qt.lists ==> qt.lists[q] == []
      {
        var q := qt.NewQueue();
        semtab[i] := Sentry(S_FREE, 0, q);
        i := i + 1;
      }
    }

    method AllocateQueues()
      requires qt.Valid() && qt.nextqid == qt.nproc && qt.lists == map[]
      requires qt.nproc + 2 * (semtab.Length + 2) <= qt.nqent
      modifies this`readylist, this`sleepq, semtab, qt`nextqid, qt`lists, qt.queuetab
      ensures qt.Valid() && qt.keys == old(qt.keys)
      ensures readylist == qt.nproc + 2 * semtab.Length && sleepq == readylist + 2
      ensures readylist in qt.lists && sleepq in qt.lists
      ensures forall s :: 0 <= s < semtab.Length ==>
        semtab[s] == Sentry(S_FREE, 0, qt.nproc + 2 * s) && qt.nproc + 2 * s in qt.lists
      ensures forall q :: q in qt.lists ==> qt.lists[q] == []
    {
      hide Valid;
      InitSems();
      readylist := qt.NewQueue();
      sleepq := qt.NewQueue();
    }

    // Freshly initialised tables satisfy the invariant.
    static lemma InitialState(k: K.State)
      requires var n := |k.procs|;
        && n > 0 && |k.keys| == n && |k.conts| == n && k.currpid == NULLPROC
        && k.readylist == n + 2 * |k.sems| && k.sleepq == n + 2 * |k.sems| + 2
        && k.readylist in k.lists && k.sleepq in k.lists && EMPTY !in k.lists
        && k.preempt == QUANTUM && k.ndefers == 0
        && (forall s :: 0 <= s < |k.sems| ==> k.sems[s] == Sentry(S_FREE, 0, n + 2 * s) && n + 2 * s in k.lists)
        && (forall q :: q in k.lists ==> k.lists[q] == [])
        && (forall p :: 0 <= p < n ==> k.procs[p].prstate == (if p == NULLPROC then PR_CURR else PR_FREE))
        && (forall p :: 0 <= p < n ==> k.conts[p] == K.Running)
      ensures Inv(k)
    {
    }

    ghost function View(): K.State
      reads this, proctab, semtab, qt
    {
      K.State(proctab[..], semtab[..], qt.lists, qt.keys, readylist, sleepq, currpid, preempt, ndefers, attempt, conts)
    }

    ghost predicate Valid()
      reads this, proctab, semtab, qt, qt.queuetab
    {
      && qt.Valid() && qt.proctab == proctab && qt.nproc == proctab.Length
      && K.Shape(View())
      && (semtab.Length > 0 ==> nextsem < semtab.Length)
    }

    predicate IsBadPid(pid: int)
      reads proctab
    {
      pid < 0 || pid >= proctab.Length || proctab[pid].prstate == PR_FREE
    }

    predicate IsBadSem(sem: int) {
      sem < 0 || sem >= semtab.Length
    }

    // A process in transit is on no queue.
    lemma NotQueued(p: int, y: int)
      requires Valid() && Core(View(), p, y) && K.IsPid(View(), p)
      ensures !Queued(qt.lists, p)
    {
      forall q | q in qt.lists ensures p !in qt.lists[q] { assert PlacedOn(View(), p, q); }
    }

    lemma GoodQid(q: int)
      requires Valid() && q in qt.lists
      ensures !qt.IsBadQid(q)
    {
      qt.NextCell(q, 0);
    }

    // Chapter 5

    // Marks a process ready and puts it on the ready list.
    method Enroll(pid: int, ghost y: int)
      requires Valid() && K.IsPid(View(), pid) && Core(View(), pid, y)
      modifies proctab, qt`lists, qt`keys, qt.queuetab
      ensures Valid() && View() == K.Enroll(old(View()), pid)
    {
      NotQueued(pid, y);
      GoodQid(readylist);
      proctab[pid] := proctab[pid].(prstate := PR_READY);
      var _ := qt.Insert(pid, readylist, proctab[pid].prprio);
    }

    // The first ready process becomes the current one.
    method Switch()
      requires Valid() && qt.lists[readylist] != []
      modifies this`currpid, this`preempt, proctab, qt`lists, qt.queuetab
      ensures Valid() && View() == K.Switch(old(View()))
    {
      hide TableOk;
      currpid := qt.Dequeue(readylist);
      proctab[currpid] := proctab[currpid].(prstate := PR_CURR);
      preempt := QUANTUM;
    }

    method FirstKey() returns (key: int)
      requires Valid()
      ensures key == K.FirstKey(View())
    {
      qt.NextCell(readylist, 0);
      if qt.lists[readylist] != [] {
        qt.NextCell(readylist, 1);
      }
      key := qt.queuetab[qt.queuetab[readylist].qnext].qkey;
    }

    method Resched(ghost y: int)
      requires Valid() && Core(View(), -1, y) && K.CanResched(View())
      modifies this`currpid, this`preempt, this`attempt, proctab, qt`lists, qt`keys, qt.queuetab
      ensures Valid() && View() == K.Resched(old(View()))
    {
      if ndefers > 0 {
        attempt := true;
        return;
      }
      if proctab[currpid].prstate == PR_CURR {
        var key := FirstKey();
        if proctab[currpid].prprio > key {
          return;
        }
        CurrentOffQueues(View(), y);
        Enroll(currpid, y);
      }
      Switch();
    }

    lemma CurrentOffQueues(k: K.State, y: int)
      requires Core(k, -1, y) && k.procs[k.currpid].prstate == PR_CURR
      ensures Core(k, k.currpid, y)
    {
      PlacedOff(k, k, k.currpid);
    }

    method Ready(pid: int, ghost y: int) returns (status: Status)
      requires Valid()
      requires IsBadPid(pid) || (Core(View(), pid, y) && (conts[pid] == K.InReceive ==> proctab[pid].prhasmsg))
      modifies this`currpid, this`preempt, this`attempt, proctab, qt`lists, qt`keys, qt.queuetab
      ensures Valid() && status == if old(IsBadPid(pid)) then SYSERR else OK
      ensures View() == if status == OK then K.Ready(old(View()), pid) else old(View())
    {
      if IsBadPid(pid) {
        return SYSERR;
      }
      EnrollCore(View(), pid, y);
      Enroll(pid, y);
      Resched(y);
      return OK;
    }

    method ReschedCntl(defer: Defer) returns (status: Status)
      requires Valid()
      requires defer == DEFER_STOP ==> Core(View(), -1, -1) && View().procs[View().currpid].prstate == PR_CURR
      modifies this`currpid, this`preempt, this`ndefers, this`attempt, proctab, qt`lists, qt`keys, qt.queuetab
      ensures Valid()
      ensures defer == DEFER_START ==> status == OK && View() == K.DeferStart(old(View()))
      ensures defer == DEFER_STOP ==>
        && (status == OK <==> old(ndefers) > 0)
        && K.CanStop(old(View()))
        && View() == K.DeferStop(old(View()))
      ensures defer == DEFER_OTHER ==> status == SYSERR && View() == old(View())
    {
      hide Placed, ReadySorted, Tame, SemLaw, Mail, Separate, K.Enroll, K.FirstKey, K.Switch, TableOk;
      if defer == DEFER_START {
        ndefers := ndefers + 1;
        if ndefers == 1 {
          attempt := false;
        }
        return OK;
      } else if defer == DEFER_STOP {
        if ndefers <= 0 {
          return SYSERR;
        }
        ghost var k := View();
        ndefers := ndefers - 1;
        CoreSame(k, View(), -1, -1);
        if ndefers == 0 && attempt {
          Resched(-1);
        }
        return OK;
      }
      return SYSERR;
    }

    // Chapter 7

    // The current process leaves for the queue of a semaphore.
    method BlockOn(sem: int)
      requires Valid() && Core(View(), currpid, -1) && !IsBadSem(sem) && proctab[currpid].prstate == PR_CURR
      modifies proctab, semtab, qt`lists, qt.queuetab
      ensures Valid() && View() == K.Blocked(old(View()), sem)
    {
      hide Core, TableOk;
      NotQueued(currpid, -1);
      GoodQid(semtab[sem].squeue);
      semtab[sem] := semtab[sem].(scount := semtab[sem].scount - 1);
      proctab[currpid] := proctab[currpid].(prstate := PR_WAIT, prsem := sem);
      var _ := qt.Enqueue(currpid, semtab[sem].squeue);
    }

    method Wait(sem: int) returns (status: Status)
      requires Valid() && Inv(View()) && conts[currpid] == K.Running
      requires K.UsedSem(View(), sem) && semtab[sem].scount <= 0 ==> KernelRuns.MayBlock(View())
      modifies this`currpid, this`preempt, this`attempt, proctab, semtab, qt`lists, qt`keys, qt.queuetab
      ensures old(K.UsedSem(View(), sem) && semtab[sem].scount <= 0 ==> K.CanBlock(View()))
      ensures Valid() && View() == K.Wait(old(View()), sem)
      ensures status == if old(K.UsedSem(View(), sem)) then OK else SYSERR
    {
      hide Core, Top, TableOk, K.Resched;
      if IsBadSem(sem) || semtab[sem].sstate == S_FREE {
        return SYSERR;
      }
      ghost var k := View();
      if semtab[sem].scount - 1 < 0 {
        KernelRuns.MayBlockCan(k);
        KernelRuns.CurrentInTransit(k);
        BlockOnCore(k, sem);
        BlockOn(sem);
        Resched(-1);
      } else {
        semtab[sem] := semtab[sem].(scount := semtab[sem].scount - 1);
      }
      return OK;
    }

    // One increment that releases the first waiter of a negative count: `signal`, and one round of `signaln`.
    method SemUp(sem: int)
      requires Valid() && Inv(View()) && !IsBadSem(sem)
      modifies this`currpid, this`preempt, this`attempt, proctab, semtab, qt`lists, qt`keys, qt.queuetab
      ensures old(semtab[sem].scount) < 0 ==> old(qt.lists[semtab[sem].squeue]) != []
      ensures Valid() && View() == K.SemUp(old(View()), sem)
    {
      hide Placed, ReadySorted, Tame, SemLaw, Separate, OneCurrent, Apart, K.FirstKey, K.Switch, KeysOf, Linked,
        K.Enroll;
      ghost var k := View();
      var count := semtab[sem].scount;
      semtab[sem] := semtab[sem].(scount := count + 1);
      if count < 0 {
        KernelRuns.UnwaitInTransit(k, sem);
        var pid := qt.Dequeue(semtab[sem].squeue);
        assert View() == KernelRuns.Unwait(k, sem);
        var _ := Ready(pid, -1);
      }
    }

    method Signal(sem: int) returns (status: Status)
      requires Valid() && Inv(View())
      modifies this`currpid, this`preempt, this`attempt, proctab, semtab, qt`lists, qt`keys, qt.queuetab
      ensures K.BadSem(old(View()), sem) || (old(semtab[sem].scount) < 0 ==> old(qt.lists[semtab[sem].squeue]) != [])
      ensures Valid() && View() == K.Signal(old(View()), sem)
      ensures status == if old(K.UsedSem(View(), sem)) then OK else SYSERR
    {
      if IsBadSem(sem) || semtab[sem].sstate == S_FREE {
        if !IsBadSem(sem) {
          KernelRuns.SemUpInv(View(), sem);
        }
        return SYSERR;
      }
      SemUp(sem);
      return OK;
    }

    method SemReset(sem: int, count: int) returns (status: Status)
      requires Valid() && Inv(View())
      modifies this`currpid, this`preempt, this`ndefers, this`attempt, proctab, semtab, qt`lists, qt`keys, qt.queuetab
      ensures K.SemQueueApart(old(View()), sem)
      ensures Valid() && View() == K.SemReset(old(View()), sem, count)
      ensures status == if count >= 0 && old(K.UsedSem(View(), sem)) then OK else SYSERR
    {
      hide K.Emptied, Placed, ReadySorted, Tame, SemLaw, Mail, OneCurrent;
      KernelRuns.QueueApart(View(), sem);
      if count < 0 || IsBadSem(sem) || semtab[sem].sstate == S_FREE {
        return SYSERR;
      }
      EmptyInto(sem, count);
      return OK;
    }

    // Releases every waiter and sets the count, in one deferral.
    method EmptyInto(sem: int, count: int)
      requires Valid() && Inv(View()) && 0 <= sem < |View().sems| && count >= 0
      modifies this`currpid, this`preempt, this`ndefers, this`attempt, proctab, semtab, qt`lists, qt`keys, qt.queuetab
      ensures K.SemQueueApart(old(View()), sem)
      ensures Valid() && View() == K.Emptied(old(View()), sem, count)
    {
      ghost var k := View();
      hide *;
      EmptyPlan(k, sem, count);
      var _ := ReschedCntl(DEFER_START);
      ReadyAll(sem);
      SetCount(sem, count);
      var _ := ReschedCntl(DEFER_STOP);
    }

    method SetCount(sem: int, count: int)
      requires Valid() && 0 <= sem < |View().sems|
      modifies semtab
      ensures Valid() && View() == K.WithCount(old(View()), sem, count)
    {
      semtab[sem] := semtab[sem].(scount := count);
    }

    // The steps of emptying a semaphore, each from a state in which it may be taken.
    static lemma EmptyPlan(k: K.State, sem: int, count: int)
      requires Inv(k) && 0 <= sem < |k.sems| && count >= 0
      ensures var k1 := K.DeferStart(k);
              var q := k1.sems[sem].squeue;
              && Core(k1, -1, -1) && Core(k1, -1, sem) && k1.ndefers > 0 && K.SemQueueApart(k, sem)
              && |k1.sems| == |k.sems| && k1.sems[sem].scount == k.sems[sem].scount
              && q in k1.lists && q != k1.readylist && K.Shape(k1)
              && var k2 := K.Release(k1, q, |k1.lists[q]|);
                 |k2.sems| == |k.sems|
                 && var k3 := K.WithCount(k2, sem, count);
                 && Core(k3, -1, -1) && 0 <= k3.currpid < |k3.procs| && k3.procs[k3.currpid].prstate == PR_CURR
                 && K.CanStop(k3) && K.Emptied(k, sem, count) == K.DeferStop(k3)
                 && KernelRuns.CanCount(k1, sem)
                 && (count == KernelRuns.Waiters(k1, sem) + k.sems[sem].scount + 1 ==>
                       k3 == KernelRuns.Counting(k1, sem, KernelRuns.Waiters(k1, sem)))
    {
      hide Placed, ReadySorted, Mail, Agenda, K.PopReady, K.Resched;
      var q := k.sems[sem].squeue;
      CoreSame(k, K.DeferStart(k), -1, -1);
      KernelRuns.ReleaseWaiters(K.DeferStart(k), sem, |k.lists[q]|);
      KernelRuns.ReleaseAllKeepsCurrent(k, q, |k.lists[q]|);
      KernelRuns.SettleCount(K.ReleaseAll(k, q, |k.lists[q]|), sem, count);
    }

    // Under deferral: makes the waiters ready until the queue is empty.
    method ReadyAll(sem: int)
      requires Valid() && 0 <= sem < |View().sems| && Core(View(), -1, sem) && View().ndefers > 0
      modifies this`currpid, this`preempt, this`attempt, proctab, qt`lists, qt`keys, qt.queuetab
      ensures var k := old(View());
              var q := k.sems[sem].squeue;
              q in k.lists && q != k.readylist && Valid() && View() == K.Release(k, q, |k.lists[q]|)
    {
      ghost var k, q := View(), View().sems[sem].squeue;
      ghost var i := 0;
      var done := false;
      hide *;
      KernelRuns.ReleaseCore(k, sem, 0);
      while !done
        invariant Valid() && 0 <= i <= |k.lists[q]| && View() == K.Release(k, q, i) && (done ==> i == |k.lists[q]|)
        decreases |k.lists[q]| - i, !done
      {
        KernelRuns.ReleaseCore(k, sem, i);
        done := ReadyFirst(sem);
        i := if done then i else i + 1;
      }
    }

    method SemDelete(sem: int) returns (status: Status)
      requires Valid() && Inv(View())
      modifies this`currpid, this`preempt, this`ndefers, this`attempt, proctab, semtab, qt`lists, qt`keys, qt.queuetab
      ensures K.SemQueueApart(old(View()), sem)
      ensures Valid() && View() == K.SemDelete(old(View()), sem)
      ensures status == if old(K.UsedSem(View(), sem)) then OK else SYSERR
    {
      hide K.Emptied, Placed, ReadySorted, Tame, SemLaw, Mail, OneCurrent;
      KernelRuns.QueueApart(View(), sem);
      if IsBadSem(sem) || semtab[sem].sstate == S_FREE {
        return SYSERR;
      }
      CountUpDeferred(sem);
      return OK;
    }

    method CountUpDeferred(sem: int)
      requires Valid() && Inv(View()) && 0 <= sem < |View().sems|
      modifies this`currpid, this`preempt, this`ndefers, this`attempt, proctab, semtab, qt`lists, qt`keys, qt.queuetab
      ensures K.SemQueueApart(old(View()), sem)
      ensures var c := old(View().sems[sem].scount);
              Valid() && View() == K.Emptied(old(View()), sem, (if c < 0 then 0 else c) + 1)
    {
      ghost var k := View();
      hide *;
      CountPlan(k, sem);
      var _ := ReschedCntl(DEFER_START);
      CountUp(sem);
      var _ := ReschedCntl(DEFER_STOP);
    }

    static lemma CountPlan(k: K.State, sem: int)
      requires Inv(k) && 0 <= sem < |k.sems|
      ensures var k1 := K.DeferStart(k);
              && Core(k1, -1, -1) && k1.ndefers > 0 && K.SemQueueApart(k, sem) && |k1.sems| == |k.sems|
              && KernelRuns.CanCount(k1, sem)
              && var k3 := KernelRuns.Counting(k1, sem, KernelRuns.Waiters(k1, sem));
                 && Core(k3, -1, -1) && 0 <= k3.currpid < |k3.procs| && k3.procs[k3.currpid].prstate == PR_CURR
                 && K.CanStop(k3)
                 && K.Emptied(k, sem, (if k.sems[sem].scount < 0 then 0 else k.sems[sem].scount) + 1) == K.DeferStop(k3)
    {
      EmptyPlan(k, sem, (if k.sems[sem].scount < 0 then 0 else k.sems[sem].scount) + 1);
      KernelRuns.CountingStart(K.DeferStart(k), sem);
    }

    // Adds one to the count.
    method Increment(sem: int) returns (count: int)
      requires Valid() && 0 <= sem < |View().sems|
      modifies semtab
      ensures Valid() && count == old(View().sems[sem].scount)
      ensures View() == K.WithCount(old(View()), sem, count + 1)
    {
      count := semtab[sem].scount;
      semtab[sem] := semtab[sem].(scount := count + 1);
    }

    // Under deferral: counts up and makes a waiter ready as long as the old count was negative.
    method CountUp(sem: int)
      requires Valid() && 0 <= sem < |View().sems| && Core(View(), -1, -1) && View().ndefers > 0
      modifies this`currpid, this`preempt, this`attempt, proctab, semtab, qt`lists, qt`keys, qt.queuetab
      ensures Valid() && KernelRuns.CanCount(old(View()), sem)
      ensures View() == KernelRuns.Counting(old(View()), sem, KernelRuns.Waiters(old(View()), sem))
    {
      ghost var k := View();
      ghost var i := 0;
      hide *;
      KernelRuns.CountingStart(k, sem);
      var count := Increment(sem);
      while count < 0
        invariant Valid() && KernelRuns.CanCount(k, sem) && 0 <= i <= KernelRuns.Waiters(k, sem)
        invariant count == k.sems[sem].scount + i && (count < 0 <==> i < KernelRuns.Waiters(k, sem))
        invariant View() == KernelRuns.Counting(k, sem, i)
        decreases KernelRuns.Waiters(k, sem) - i
      {
        KernelRuns.CountingStep(k, sem, i);
        var _ := ReadyFirst(sem);
        count := Increment(sem);
        i := i + 1;
      }
    }

    // Under deferral: makes the first process of a queue ready, if there is one.
    method ReadyFirst(sem: int) returns (done: bool)
      requires Valid() && 0 <= sem < |View().sems| && Core(View(), -1, sem) && View().ndefers > 0
      modifies this`currpid, this`preempt, this`attempt, proctab, qt`lists, qt`keys, qt.queuetab
      ensures var k := old(View());
              var q := k.sems[sem].squeue;
              && q in k.lists && Valid() && done == (k.lists[q] == [])
              && View() == if done then k else K.PopReady(k, q)
    {
      hide Core, TableOk, K.Ready;
      ghost var k := View();
      var pid := qt.GetFirst(semtab[sem].squeue);
      if pid == EMPTY {
        assert k.lists[k.sems[sem].squeue] == [] by {
          if k.lists[k.sems[sem].squeue] != [] { KernelRuns.WaiterInTransit(k, sem); }
        }
        return true;
      }
      KernelRuns.WaiterInTransit(k, sem);
      assert View() == KernelRuns.Popped(k, k.sems[sem].squeue);
      var _ := Ready(pid, sem);
      return false;
    }

    // Chapter 13

    // Whether the first sleeper has run out of ticks.
    method FirstExpired() returns (b: bool)
      requires Valid()
      ensures b == KernelRuns.HeadExpired(View())
    {
      qt.FirstCell(sleepq);
      if !qt.IsEmpty(sleepq) {
        qt.NextCell(sleepq, 1);
        return qt.queuetab[qt.queuetab[sleepq].qnext].qkey <= 0;
      }
      return false;
    }

    // Under deferral: makes the first sleeper ready.
    method ReadySleeper()
      requires Valid() && KernelRuns.CanWake(View()) && KernelRuns.HeadExpired(View())
      modifies this`currpid, this`preempt, this`attempt, proctab, qt`lists, qt`keys, qt.queuetab
      ensures var k := old(View());
              k.sleepq in k.lists && k.lists[k.sleepq] != [] && Valid() && View() == K.PopReady(k, k.sleepq)
    {
      ghost var k := View();
      KernelRuns.LiftedInTransit(k);
      var pid := qt.Dequeue(sleepq);
      assert View() == KernelRuns.Popped(k, k.sleepq);
      var _ := Ready(pid, -1);
    }

    method Wakeup()
      requires Valid() && K.Shape(View()) && Inv(KernelRuns.Lifted(View()))
      modifies this`currpid, this`preempt, this`ndefers, this`attempt, proctab, qt`lists, qt`keys, qt.queuetab
      ensures old(View()).readylist != old(View()).sleepq && old(View()).ndefers >= 0
      ensures Valid() && View() == K.Wakeup(old(View()))
    {
      ghost var k := View();
      hide *;
      KernelRuns.WakeupPlan(k);
      var _ := ReschedCntl(DEFER_START);
      ghost var i, k1 := 0, View();
      KernelRuns.WakingStep(k1, 0);
      var more := FirstExpired();
      while more
        invariant Valid() && KernelRuns.CanWake(k1) && 0 <= i <= KernelRuns.Sleepers(k1)
        invariant View() == KernelRuns.Waking(k1, i) && (more <==> i < KernelRuns.Sleepers(k1))
        decreases KernelRuns.Sleepers(k1) - i
      {
        KernelRuns.WakingStep(k1, i);
        ReadySleeper();
        i := i + 1;
        KernelRuns.WakingStep(k1, i);
        more := FirstExpired();
      }
      var _ := ReschedCntl(DEFER_STOP);
    }

    // One tick off the delta of the first sleeper.
    method DecrementHead()
      requires Valid() && K.Shape(View()) && Inv(View()) && View().lists[View().sleepq] != []
      modifies qt`keys, qt.queuetab
      ensures K.Shape(old(View())) && Valid() && View() == K.HeadDown(old(View()))
    {
      hide Placed, ReadySorted, Tame, SemLaw, Mail, Separate, OneCurrent, Top, TableOk;
      qt.NextCell(sleepq, 1);
      qt.NextCell(sleepq, 0);
      assert qt.lists[sleepq][0] in qt.lists[sleepq];
      TameKeys(qt.lists[sleepq], qt.keys, qt.lists[sleepq][0]);
      qt.AddKey(qt.queuetab[sleepq].qnext, -1);
    }

    method SleepQueueEmpty() returns (b: bool)
      requires Valid()
      ensures K.Shape(View()) && b == (View().lists[View().sleepq] == [])
    {
      qt.FirstCell(sleepq);
      return qt.IsEmpty(sleepq);
    }

    // What the current process will run when it is next switched in.
    ghost method SetCont(c: K.Cont)
      requires Valid()
      modifies this`conts
      ensures Valid() && View() == K.WithCont(old(View()), old(View()).currpid, c)
    {
      conts := conts[currpid := c];
    }

    /** The clock interrupt, up to the context switch that `wakeup` may cause. */
    method ClkHandler()
      requires Valid() && Inv(View()) && conts[currpid] == K.Running
      modifies this`conts, this`currpid, this`preempt, this`ndefers, this`attempt, proctab, qt`lists, qt`keys, qt.queuetab
      ensures old(View()).readylist != old(View()).sleepq && old(View()).ndefers >= 0
      ensures Valid() && View() == K.Tick(old(View()))
    {
      ghost var k := View();
      hide *;
      KernelRuns.TickPlan(k);
      SetCont(K.InTick);
      var empty := SleepQueueEmpty();
      if !empty {
        DecrementHead();
        var expired := FirstExpired();
        if expired {
          Wakeup();
        }
      }
    }

    /** The rest of the clock interrupt, when the interrupted process runs again: the time slice. */
    method ClkHandlerTail()
      requires Valid() && Inv(View()) && conts[currpid] == K.InTick
      modifies this`conts, this`currpid, this`preempt, this`attempt, proctab, qt`lists, qt`keys, qt.queuetab
      ensures K.CanResched(old(View()))
      ensures Valid() && View() == K.TickTail(old(View()))
    {
      hide Inv, Placed, ReadySorted, Tame, SemLaw, Mail, Separate, K.Enroll, K.FirstKey, K.Switch, TableOk;
      ghost var k := View();
      KernelRuns.ContInv(k, K.Running);
      conts := conts[currpid := K.Running];
      preempt := preempt - 1;
      if preempt <= 0 {
        preempt := QUANTUM;
        CoreSame(K.WithCont(k, k.currpid, K.Running), View(), -1, -1);
        Resched(-1);
      }
    }

    // Puts the caller on the sleep queue, in its new state.
    method SleepAs(delay: int32, s: PrState)
      requires Valid() && Core(View(), currpid, -1) && 0 <= delay && proctab[currpid].prstate == PR_CURR && s != PR_FREE
      modifies proctab, qt`lists, qt`keys, qt.queuetab
      ensures Valid() && View() == K.GoToSleep(old(View()), delay, s)
    {
      hide Core, DeltaIndex, DeltaKeys, TableOk;
      NotQueued(currpid, -1);
      GoodQid(sleepq);
      SleepersTame();
      var _ := qt.InsertD(currpid, sleepq, delay);
      proctab[currpid] := proctab[currpid].(prstate := s);
    }

    lemma SleepersTame()
      requires Valid() && Core(View(), currpid, -1)
      ensures sleepq in qt.lists && forall p :: p in qt.lists[sleepq] && 0 <= p < qt.nproc ==> 0 <= qt.keys[p]
    {
      hide Placed, ReadySorted, SemLaw, Mail, Separate, OneCurrent;
      forall p | p in qt.lists[sleepq] && 0 <= p < qt.nproc
        ensures 0 <= qt.keys[p]
      {
        assert qt.lists[sleepq][IndexOf(qt.lists[sleepq], p)] == p;
      }
    }

    method Yield()
      requires Valid() && Inv(View())
      modifies this`currpid, this`preempt, this`attempt, proctab, qt`lists, qt`keys, qt.queuetab
      ensures K.CanResched(old(View())) && Valid() && View() == K.Resched(old(View()))
    {
      Resched(-1);
    }

    method SleepMs(delay: int32)
      requires Valid() && Inv(View()) && conts[currpid] == K.Running && 0 <= delay
      requires delay != 0 ==> KernelRuns.MayBlock(View())
      modifies this`currpid, this`preempt, this`attempt, proctab, qt`lists, qt`keys, qt.queuetab
      ensures var k := old(View());
              K.CanResched(k) && k.readylist != k.sleepq && (delay != 0 ==> K.CanBlock(k))
      ensures Valid() && View() == K.SleepMs(old(View()), delay)
    {
      hide Placed, ReadySorted, Tame, SemLaw, Mail, OneCurrent, Top, DeltaIndex, DeltaKeys, InsertAt, K.Enroll,
        K.FirstKey, K.Switch, TableOk;
      if delay == 0 {
        Yield();
        return;
      }
      ghost var k := View();
      KernelRuns.MayBlockCan(k);
      KernelRuns.CurrentInTransit(k);
      GoToSleepCore(k, delay, PR_SLEEP, K.Running);
      assert K.WithCont(K.GoToSleep(k, delay, PR_SLEEP), k.currpid, K.Running) == K.GoToSleep(k, delay, PR_SLEEP);
      SleepAs(delay, PR_SLEEP);
      Resched(-1);
    }

    // Passes the delta of a sleeper on to its successor, unless that is the tail of the queue.
    method PassDelta(pid: int)
      requires qt.Valid() && qt.nproc == proctab.Length && sleepq in qt.lists && pid in qt.lists[sleepq]
      requires Tame(qt.lists[sleepq], qt.keys)
      modifies qt`keys, qt.queuetab
      ensures qt.Valid() && qt.keys == GiveBack(qt.lists[sleepq], old(qt.keys), pid)
    {
      hide Tame;
      ghost var l := qt.lists[sleepq];
      ghost var i := IndexOf(l, pid);
      qt.NextCell(sleepq, i + 1);
      var pidnext := qt.queuetab[pid].qnext;
      if pidnext < proctab.Length {
        GiveBackBound(l, qt.keys, pid);
        qt.NextCell(sleepq, i);
        assert pidnext == l[i + 1];
        qt.AddKey(pidnext, qt.queuetab[pid].qkey);
      }
    }

    // The rest of `unsleep`, whose caller has checked the state.
    method Unsleep(pid: int)
      requires Valid() && Core(View(), -1, -1) && K.IsPid(View(), pid)
      requires proctab[pid].prstate in {PR_SLEEP, PR_RECTIM}
      modifies qt`lists, qt`keys, qt.queuetab
      ensures Valid() && View() == K.Unsleep(old(View()), pid)
    {
      assert PlacedOn(View(), -1, sleepq);
      PassDelta(pid);
      var _ := qt.GetItem(pid, sleepq);
    }

    // Chapter 8 and Chapter13/recvtime.c

    // Puts a message into a mailbox.
    method Deliver(pid: int, msg: int)
      requires Valid() && K.IsPid(View(), pid)
      modifies proctab
      ensures Valid() && View() == K.Delivered(old(View()), pid, msg)
    {
      proctab[pid] := proctab[pid].(prmsg := msg, prhasmsg := true);
    }

    method Send(pid: int, msg: int) returns (status: Status)
      requires Valid() && Inv(View())
      modifies this`currpid, this`preempt, this`attempt, proctab, qt`lists, qt`keys, qt.queuetab
      ensures Valid() && View() == K.Send(old(View()), pid, msg)
      ensures status == if old(K.BadPid(View(), pid) || proctab[pid].prhasmsg) then SYSERR else OK
    {
      hide Inv, Placed, Mail, OneCurrent, Agenda, K.Shape, TableOk, K.Delivered, K.Ready, K.Unsleep;
      if IsBadPid(pid) || proctab[pid].prhasmsg {
        return SYSERR;
      }
      if proctab[pid].prstate == PR_RECV {
        SendWaiting(pid, msg);
      } else if proctab[pid].prstate == PR_RECTIM {
        SendTimed(pid, msg);
      } else {
        Deliver(pid, msg);
      }
      return OK;
    }

    // `send` to a process blocked in `receive`.
    method SendWaiting(pid: int, msg: int)
      requires Valid() && Inv(View()) && K.IsPid(View(), pid) && proctab[pid].prstate == PR_RECV
      modifies this`currpid, this`preempt, this`attempt, proctab, qt`lists, qt`keys, qt.queuetab
      ensures Valid() && View() == K.Ready(K.Delivered(old(View()), pid, msg), pid)
    {
      ghost var k := View();
      PlacedOff(k, k, pid);
      KernelRuns.DeliverCore(k, pid, msg);
      Deliver(pid, msg);
      var _ := Ready(pid, -1);
    }

    // `send` to a process blocked in `recvtime`.
    method SendTimed(pid: int, msg: int)
      requires Valid() && Inv(View()) && K.IsPid(View(), pid) && proctab[pid].prstate == PR_RECTIM
      modifies this`currpid, this`preempt, this`attempt, proctab, qt`lists, qt`keys, qt.queuetab
      ensures Valid() && View() == K.Ready(K.Unsleep(K.Delivered(old(View()), pid, msg), pid), pid)
    {
      hide Inv, Core, K.Shape, K.Unsleep, K.Delivered, K.Ready;
      TimedPlan(View(), pid, msg);
      Unsleep(pid);
      Deliver(pid, msg);
      assert proctab[pid] == View().procs[pid];
      var _ := Ready(pid, -1);
    }

    static lemma TimedPlan(k: K.State, pid: int, msg: int)
      requires Inv(k) && K.IsPid(k, pid) && k.procs[pid].prstate == PR_RECTIM
      ensures K.Shape(k) && Core(k, -1, -1) && |K.Unsleep(k, pid).procs| == |k.procs|
      ensures var k' := K.Delivered(K.Unsleep(k, pid), pid, msg);
              && k' == K.Unsleep(K.Delivered(k, pid, msg), pid) && Core(k', pid, -1)
              && pid < |k'.procs| && k'.procs[pid].prstate == PR_RECTIM && k'.procs[pid].prhasmsg
    {
      UnsleepCore(k, pid, -1);
      KernelRuns.DeliverCore(K.Unsleep(k, pid), pid, msg);
    }

    // The mailbox of the current process, emptied.
    method Take() returns (msg: int)
      requires Valid()
      modifies proctab
      ensures Valid() && View() == K.TakeMessage(old(View())) && msg == old(proctab[currpid].prmsg)
    {
      msg := proctab[currpid].prmsg;
      proctab[currpid] := proctab[currpid].(prhasmsg := false);
    }

    /** `receive`: the message if there is one; otherwise the caller blocks and `ReceiveTail` is the rest. */
    method Receive() returns (msg: Option<int>)
      requires Valid() && Inv(View()) && conts[currpid] == K.Running
      requires !K.HasMessage(View()) ==> KernelRuns.MayBlock(View())
      modifies this`conts, this`currpid, this`preempt, this`attempt, proctab, qt`lists, qt`keys, qt.queuetab
      ensures !K.HasMessage(old(View())) ==> K.CanBlock(old(View()))
      ensures Valid() && View() == K.Receive(old(View()))
      ensures msg == if K.HasMessage(old(View())) then Some(old(proctab[currpid].prmsg)) else None
    {
      if proctab[currpid].prhasmsg {
        var m := Take();
        return Some(m);
      }
      ghost var k := View();
      KernelRuns.MayBlockCan(k);
      KernelRuns.CurrentInTransit(k);
      KernelRuns.LandCore(k, k.currpid, k.procs[k.currpid].(prstate := PR_RECV), K.InReceive);
      proctab[currpid] := proctab[currpid].(prstate := PR_RECV);
      SetCont(K.InReceive);
      Resched(-1);
      return None;
    }

    /** The rest of `receive` in a process that had blocked: there is a message, and it is the one returned. */
    method ReceiveTail() returns (msg: int)
      requires Valid() && Inv(View()) && conts[currpid] == K.InReceive
      modifies this`conts, proctab
      ensures old(K.HasMessage(View())) && msg == old(proctab[currpid].prmsg)
      ensures Valid() && View() == K.ReceiveTail(old(View()))
    {
      SetCont(K.Running);
      msg := Take();
    }

    method RecvClr() returns (msg: Option<int>)
      requires Valid() && Inv(View())
      modifies proctab
      ensures Valid() && View() == K.TakeMessage(old(View()))
      ensures msg == if K.HasMessage(old(View())) then Some(old(proctab[currpid].prmsg)) else None
    {
      if proctab[currpid].prhasmsg {
        var m := Take();
        return Some(m);
      }
      assert proctab[..][currpid := proctab[currpid].(prhasmsg := false)] == proctab[..];
      return None;
    }

    /** `recvtime`: a message, an error for a negative time, or the caller sleeps and `RecvTimeTail` is the rest. */
    method RecvTime(maxwait: int32) returns (r: Received)
      requires Valid() && Inv(View()) && conts[currpid] == K.Running
      requires maxwait >= 0 && !K.HasMessage(View()) ==> KernelRuns.MayBlock(View())
      modifies this`conts, this`currpid, this`preempt, this`attempt, proctab, qt`lists, qt`keys, qt.queuetab
      ensures old(View()).readylist != old(View()).sleepq
      ensures maxwait >= 0 && !K.HasMessage(old(View())) ==> K.CanBlock(old(View()))
      ensures Valid() && View() == K.RecvTime(old(View()), maxwait)
      ensures r == if maxwait < 0 then REFUSED
                   else if K.HasMessage(old(View())) then Message(old(proctab[currpid].prmsg)) else Blocked
    {
      hide Placed, ReadySorted, Tame, SemLaw, Mail, OneCurrent, Top, DeltaIndex, DeltaKeys, InsertAt, K.Enroll,
        K.FirstKey, K.Switch, K.TakeMessage, TableOk;
      if maxwait < 0 {
        return REFUSED;
      }
      if proctab[currpid].prhasmsg {
        var m := Take();
        return Message(m);
      }
      ghost var k := View();
      KernelRuns.MayBlockCan(k);
      KernelRuns.CurrentInTransit(k);
      GoToSleepCore(k, maxwait, PR_RECTIM, K.InRecvTime);
      SleepAs(maxwait, PR_RECTIM);
      SetCont(K.InRecvTime);
      Resched(-1);
      return Blocked;
    }

    method RecvTimeTail() returns (r: Received)
      requires Valid() && Inv(View()) && conts[currpid] == K.InRecvTime
      modifies this`conts, proctab
      ensures Valid() && View() == K.ReceiveTail(old(View()))
      ensures r == if old(K.HasMessage(View())) then Message(old(proctab[currpid].prmsg)) else TIMEOUT
    {
      SetCont(K.Running);
      if proctab[currpid].prhasmsg {
        var m := Take();
        return Message(m);
      }
      assert proctab[..][currpid := proctab[currpid].(prhasmsg := false)] == proctab[..];
      return TIMEOUT;
    }

    // Chapter 6

    method SetState(pid: int, s: PrState)
      requires Valid() && K.IsPid(View(), pid)
      modifies proctab
      ensures Valid() && View() == K.WithState(old(View()), pid, s)
    {
      proctab[pid] := proctab[pid].(prstate := s);
    }

    method Suspend(pid: int) returns (r: Option<int>)
      requires Valid() && Inv(View()) && conts[currpid] == K.Running
      requires pid == currpid && pid != NULLPROC ==> ndefers == 0
      modifies this`currpid, this`preempt, this`attempt, proctab, qt`lists, qt`keys, qt.queuetab
      ensures var k := old(View()); pid == k.currpid && pid != NULLPROC ==> K.CanBlock(k)
      ensures Valid() && View() == K.Suspend(old(View()), pid)
      ensures r.Some? <==> !old(IsBadPid(pid)) && pid != NULLPROC && old(proctab[pid].prstate in {PR_CURR, PR_READY})
      ensures r.Some? ==> r.value == old(proctab[pid].prprio)
    {
      hide ReadySorted, Tame, SemLaw, Mail, Separate, Apart, KeysOf, Linked, Without, K.Enroll, K.FirstKey;
      ghost var k := View();
      if pid == currpid && pid != NULLPROC {
        KernelRuns.MayBlockCan(k);
      }
      if IsBadPid(pid) || pid == NULLPROC {
        return None;
      }
      if proctab[pid].prstate != PR_CURR && proctab[pid].prstate != PR_READY {
        return None;
      }
      r := Some(proctab[pid].prprio);
      if proctab[pid].prstate == PR_READY {
        assert PlacedOn(k, -1, readylist);
        Leave(pid, readylist);
        SetState(pid, PR_SUSP);
      } else {
        KernelRuns.CurrentInTransit(k);
        KernelRuns.LandCore(k, pid, k.procs[pid].(prstate := PR_SUSP), k.conts[pid]);
        assert k.conts[pid := k.conts[pid]] == k.conts;
        SetState(pid, PR_SUSP);
        Resched(-1);
      }
    }

    method Resume(pid: int) returns (r: Option<int>)
      requires Valid() && Inv(View())
      modifies this`currpid, this`preempt, this`attempt, proctab, qt`lists, qt`keys, qt.queuetab
      ensures Valid() && View() == K.Resume(old(View()), pid)
      ensures r == if old(!IsBadPid(pid) && proctab[pid].prstate == PR_SUSP) then Some(old(proctab[pid].prprio)) else None
    {
      if IsBadPid(pid) || proctab[pid].prstate != PR_SUSP {
        return None;
      }
      r := Some(proctab[pid].prprio);
      PlacedOff(View(), View(), pid);
      var _ := Ready(pid, -1);
    }

    // A process that is freed has nothing left to run.
    method Bury(pid: int)
      requires Valid() && K.IsPid(View(), pid)
      modifies this`conts, proctab
      ensures Valid() && View() == K.Dead(old(View()), pid)
    {
      proctab[pid] := proctab[pid].(prstate := PR_FREE);
      conts := conts[pid := K.Running];
    }

    /** The state switch of `kill`. */
    method Kill(pid: int) returns (status: Status)
      requires Valid() && Inv(View())
      requires pid == currpid && pid != NULLPROC ==> ndefers == 0
      modifies this`conts, this`currpid, this`preempt, this`attempt, proctab, semtab, qt`lists, qt`keys, qt.queuetab
      ensures var k := old(View()); pid == k.currpid && pid != NULLPROC ==> K.CanBlock(k)
      ensures Valid() && View() == K.Kill(old(View()), pid)
      ensures status == if old(IsBadPid(pid)) || pid == NULLPROC then SYSERR else OK
    {
      ghost var k := View();
      if pid == currpid && pid != NULLPROC {
        KernelRuns.MayBlockCan(k);
      }
      if IsBadPid(pid) || pid == NULLPROC {
        return SYSERR;
      }
      KillSwitch(pid);
      return OK;
    }

    method KillSwitch(pid: int)
      requires Valid() && Inv(View()) && !K.BadPid(View(), pid) && pid != NULLPROC
      requires pid == currpid ==> KernelRuns.MayBlock(View()) && K.CanBlock(View())
      modifies this`conts, this`currpid, this`preempt, this`attempt, proctab, semtab, qt`lists, qt`keys, qt.queuetab
      ensures Valid() && View() == K.Kill(old(View()), pid)
    {
      hide Placed, ReadySorted, Tame, SemLaw, Mail, Separate;
      match proctab[pid].prstate
      case PR_CURR => KillSelf();
      case PR_SLEEP => KillSleeper(pid);
      case PR_RECTIM => KillSleeper(pid);
      case PR_WAIT => KillWaiter(pid);
      case PR_READY => KillReady(pid);
      case PR_RECV => Bury(pid);
      case PR_SUSP => Bury(pid);
    }

    method KillSelf()
      requires Valid() && Inv(View()) && KernelRuns.MayBlock(View())
      modifies this`conts, this`currpid, this`preempt, this`attempt, proctab, qt`lists, qt`keys, qt.queuetab
      ensures var k := K.Dead(old(View()), old(currpid)); K.CanResched(k) && Valid() && View() == K.Resched(k)
    {
      KernelRuns.CurrentInTransit(View());
      KernelRuns.DeadCore(View(), currpid);
      SomeoneReady(K.Dead(View(), currpid), -1);
      Bury(currpid);
      Resched(-1);
    }

    method KillReady(pid: int)
      requires Valid() && Inv(View()) && K.IsPid(View(), pid) && pid != NULLPROC && proctab[pid].prstate == PR_READY
      modifies this`conts, proctab, qt`lists, qt.queuetab
      ensures Valid() && View() == K.Kill(old(View()), pid)
    {
      hide ReadySorted, Tame, SemLaw, Mail, Separate, OneCurrent, Apart, GiveBack, K.Enroll, K.FirstKey, K.Switch,
        KeysOf, Linked, Without;
      assert PlacedOn(View(), -1, readylist);
      Leave(pid, readylist);
      Bury(pid);
    }

    method KillSleeper(pid: int)
      requires Valid() && Inv(View()) && K.IsPid(View(), pid) && pid != NULLPROC
      requires proctab[pid].prstate in {PR_SLEEP, PR_RECTIM}
      modifies this`conts, proctab, qt`lists, qt`keys, qt.queuetab
      ensures Valid() && View() == K.Unsleep(K.Dead(old(View()), pid), pid)
    {
      Unsleep(pid);
      Bury(pid);
    }

    // A killed waiter gives its claim on the semaphore back.
    method KillWaiter(pid: int)
      requires Valid() && Inv(View()) && 0 <= pid < |View().procs| && pid != NULLPROC
      requires View().procs[pid].prstate == PR_WAIT
      modifies this`conts, proctab, semtab, qt`lists, qt.queuetab
      ensures !K.BadSem(old(View()), old(View()).procs[pid].prsem)
      ensures Valid() && View() == K.Kill(old(View()), pid)
    {
      hide *;
      KernelRuns.WaiterQueue(View(), pid);
      var sem, q := SemOf(pid);
      var _ := Increment(sem);
      Leave(pid, q);
      Bury(pid);
    }

    method SemOf(pid: int) returns (sem: int, q: int)
      requires Valid() && 0 <= pid < |View().procs|
      requires var s := View().procs[pid].prsem; 0 <= s < |View().sems|
      ensures sem == View().procs[pid].prsem && q == View().sems[sem].squeue
    {
      sem := proctab[pid].prsem;
      q := semtab[sem].squeue;
    }

    // Takes a process off the queue q that holds it.
    method Leave(pid: int, ghost q: int)
      requires Valid() && q in View().lists && pid in View().lists[q]
      modifies qt`lists, qt.queuetab
      ensures K.Shape(old(View())) && Valid() && View() == K.Unlinked(old(View()), q, pid)
    {
      PidsWithout(qt.lists[q], proctab.Length, pid);
      var _ := qt.GetItem(pid, q);
    }

    // Creation

    // The search of `newsem`: the number of a free entry, or -1.
    method FindSem() returns (sem: int)
      requires semtab.Length > 0 ==> nextsem < semtab.Length
      modifies this`nextsem
      ensures semtab.Length > 0 ==> nextsem < semtab.Length
      ensures sem == -1 <==> forall s :: 0 <= s < semtab.Length ==> semtab[s].sstate != S_FREE
      ensures sem != -1 ==> 0 <= sem < semtab.Length && semtab[sem].sstate == S_FREE
    {
      ghost var from, n := nextsem, semtab.Length;
      var i := 0;
      while i < semtab.Length
        invariant 0 <= i <= n && (n > 0 ==> nextsem < n)
        invariant i < n ==> nextsem == Around(from, i, n)
        invariant forall k :: 0 <= k < i ==> semtab[Around(from, k, n)].sstate != S_FREE
      {
        sem := nextsem;
        nextsem := nextsem + 1;
        if nextsem >= semtab.Length {
          nextsem := 0;
        }
        if semtab[sem].sstate == S_FREE {
          return sem;
        }
        i := i + 1;
      }
      forall s | 0 <= s < n ensures semtab[s].sstate != S_FREE { AroundOnce(from, s, n); }
      return -1;
    }

    /** `semcreate`: a free entry becomes a semaphore with the count asked for and nobody waiting. */
    method SemCreate(count: int) returns (sem: int)
      requires Valid() && Inv(View())
      modifies this`nextsem, semtab
      ensures Valid() && Inv(View())
      ensures sem == -1 <==> count < 0 || forall s :: 0 <= s < semtab.Length ==> old(semtab[s]).sstate != S_FREE
      ensures sem == -1 ==> View() == old(View())
      ensures sem != -1 ==> 0 <= sem < semtab.Length && old(semtab[sem]).sstate == S_FREE
      ensures sem != -1 ==> View() == K.SemCreate(old(View()), sem, count)
    {
      hide Inv, K.Shape;
      if count < 0 {
        return -1;
      }
      ghost var k := View();
      sem := FindSem();
      if sem == -1 {
        return;
      }
      CreatedShape(k, sem, count);
      semtab[sem] := semtab[sem].(sstate := S_USED);
      semtab[sem] := semtab[sem].(scount := count);
      assert View() == K.SemCreate(k, sem, count);
    }

    static lemma CreatedShape(k: K.State, s: int, count: int)
      requires Inv(k) && !K.BadSem(k, s) && k.sems[s].sstate == S_FREE && count >= 0
      ensures K.Shape(k) && K.Shape(K.SemCreate(k, s, count)) && Inv(K.SemCreate(k, s, count))
    {
      KernelRuns.SemCreateInv(k, s, count);
    }

    // The search of `newpid`: the number of a free entry, or -1.
    method FindPid() returns (pid: int)
      requires proctab.Length > 0
      modifies this`nextpid
      ensures pid == -1 <==> forall p :: 0 <= p < proctab.Length ==> proctab[p].prstate != PR_FREE
      ensures pid != -1 ==> 0 <= pid < proctab.Length && proctab[pid].prstate == PR_FREE
    {
      ghost var from, n := nextpid % proctab.Length, proctab.Length;
      var i := 0;
      while i < proctab.Length
        invariant 0 <= i <= n && nextpid % n == if i < n then Around(from, i, n) else from
        invariant forall k :: 0 <= k < i ==> proctab[Around(from, k, n)].prstate != PR_FREE
      {
        nextpid := nextpid % proctab.Length;
        pid := nextpid;
        NextMod(pid, n);
        nextpid := nextpid + 1;
        if proctab[pid].prstate == PR_FREE {
          return pid;
        }
        i := i + 1;
      }
      forall p | 0 <= p < n ensures proctab[p].prstate != PR_FREE { AroundOnce(from, p, n); }
      return -1;
    }

    static lemma NextMod(i: nat, n: nat)
      requires i < n
      ensures (i + 1) % n == Round(i, n)
    {
    }

    /** `create` but for the new stack: a free entry becomes a suspended process with an empty mailbox. `stack` is what
        `getstk` returned. */
    method Create(priority: Prio, stack: Option<int>) returns (r: Option<int>)
      requires Valid() && Inv(View())
      modifies this`nextpid, proctab
      ensures Valid()
      ensures r == None <==>
        priority < 1 || stack == None || forall p :: 0 <= p < proctab.Length ==> old(proctab[p]).prstate != PR_FREE
      ensures r == None ==> View() == old(View())
      ensures r.Some? ==> 0 <= r.value < proctab.Length && old(proctab[r.value]).prstate == PR_FREE
      ensures r.Some? ==> View() == K.Create(old(View()), r.value, priority)
    {
      hide Inv;
      if priority < 1 {
        return None;
      }
      var pid := FindPid();
      if pid == -1 || stack == None {
        return None;
      }
      proctab[pid] := proctab[pid].(prstate := PR_SUSP, prprio := priority, prsem := -1, prhasmsg := false);
      return Some(pid);
    }
  }
}
