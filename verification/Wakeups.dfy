/** Exact wake-up over whole runs: a process that sleeps k ticks is made ready by exactly the k-th tick. */
module Wakeups {
  import opened Types
  import opened Lists
  import opened Queue
  import opened Delta
  import opened KernelState
  import opened KernelInv
  import opened KernelRuns

  ghost predicate Asleep(k: State, p: int) {
    IsPid(k, p) && k.procs[p].prstate in {PR_SLEEP, PR_RECTIM}
  }

  lemma AsleepQueued(k: State, p: int)
    requires Inv(k) && IsPid(k, p)
    ensures Asleep(k, p) <==> p in k.lists[k.sleepq]
    ensures Asleep(k, p) ==> Due(Agenda(k.lists[k.sleepq], k.keys, 0), p).Some?
  {
    assert PlacedOn(k, -1, k.sleepq);
    DueBase(k.lists[k.sleepq], k.keys, 0, 0, p);
  }

  /** The number of ticks after which a sleeping process is due. */
  ghost function DueIn(k: State, p: int): int
    requires Shape(k) && p in k.lists[k.sleepq]
  {
    DueBase(k.lists[k.sleepq], k.keys, 0, 0, p);
    Due(Agenda(k.lists[k.sleepq], k.keys, 0), p).value
  }

  /** Nobody on the sleep queue is already due. */
  ghost predicate Prompt(k: State)
    requires Shape(k)
  {
    var l := k.lists[k.sleepq];
    l != [] ==> k.keys[l[0]] >= 1
  }

  /** The sleep queue and the sleepers are the same. */
  ghost predicate SleepSame(k: State, k': State) {
    && Shape(k) && Shape(k') && k'.sleepq == k.sleepq && |k'.procs| == |k.procs|
    && var l := k.lists[k.sleepq];
       k'.lists[k.sleepq] == l
       && forall i :: 0 <= i < |l| ==>
            k'.keys[l[i]] == k.keys[l[i]] && k'.procs[l[i]].prstate == k.procs[l[i]].prstate
  }

  lemma SleepSameDue(k: State, k': State, p: int)
    requires SleepSame(k, k') && p in k.lists[k.sleepq]
    ensures DueIn(k', p) == DueIn(k, p) && k'.procs[p].prstate == k.procs[p].prstate
    ensures Prompt(k') == Prompt(k)
  {
    var l := k.lists[k.sleepq];
    AgendaFrame(l, k.keys, k'.keys, 0);
    assert l[IndexOf(l, p)] == p;
  }

  lemma EnrollSleep(k: State, p: int)
    requires Shape(k) && IsPid(k, p) && k.readylist != k.sleepq && p !in k.lists[k.sleepq]
    ensures SleepSame(k, Enroll(k, p))
  {
    NotInEntries(k.lists[k.sleepq], p);
  }

  lemma SwitchSleep(k: State)
    requires Shape(k) && k.readylist != k.sleepq && k.lists[k.readylist] != []
    requires k.lists[k.readylist][0] !in k.lists[k.sleepq]
    ensures SleepSame(k, Switch(k))
  {
    NotInEntries(k.lists[k.sleepq], k.lists[k.readylist][0]);
  }

  lemma ReadyNotAsleep(k: State, x: int, y: int, p: int)
    requires Core(k, x, y) && p in k.lists[k.readylist]
    ensures p !in k.lists[k.sleepq]
  {
    assert PlacedOn(k, x, k.readylist) && PlacedOn(k, x, k.sleepq);
    var i :| 0 <= i < |k.lists[k.readylist]| && k.lists[k.readylist][i] == p;
  }

  lemma ReschedSleep(k: State)
    requires Core(k, -1, -1) && (k.ndefers == 0 || k.procs[k.currpid].prstate == PR_CURR)
    ensures CanResched(k) && SleepSame(k, Resched(k))
  {
    hide Inv, ReadySorted, SemLaw, Agenda, InsertAt, PrioIndex;
    ReschedInv(k);
    if k.ndefers == 0 {
      if k.procs[k.currpid].prstate != PR_CURR {
        ReadyNotAsleep(k, -1, -1, k.lists[k.readylist][0]);
        SwitchSleep(k);
      } else if k.procs[k.currpid].prprio <= FirstKey(k) {
        PlacedOff(k, k, k.currpid);
        EnrollCore(k, k.currpid, -1);
        assert PlacedOn(k, -1, k.sleepq);
        EnrollSleep(k, k.currpid);
        var k1 := Enroll(k, k.currpid);
        ReadyNotAsleep(k1, -1, -1, k1.lists[k.readylist][0]);
        SwitchSleep(k1);
      }
    }
  }

  lemma SleepSameTrans(k: State, k1: State, k2: State)
    requires SleepSame(k, k1) && SleepSame(k1, k2)
    ensures SleepSame(k, k2)
  {
  }

  /** Making a process that is in transit ready leaves the sleepers alone. */
  lemma ReadySleep(k: State, p: int)
    requires Core(k, p, -1) && IsPid(k, p) && (k.conts[p] == InReceive ==> k.procs[p].prhasmsg)
    requires p != k.currpid && k.procs[k.currpid].prstate == PR_CURR
    ensures SleepSame(k, Ready(k, p))
  {
    assert PlacedOn(k, p, k.sleepq);
    EnrollCore(k, p, -1);
    EnrollSleep(k, p);
    ReschedSleep(Enroll(k, p));
    SleepSameTrans(k, Enroll(k, p), Ready(k, p));
  }

  lemma ReleaseSleep(k: State, q: int, n: nat)
    requires Shape(k) && q in k.lists && q != k.readylist && n <= |k.lists[q]| && k.ndefers > 0
    requires q != k.sleepq && k.readylist != k.sleepq
    requires forall p :: p in k.lists[q] ==> p !in k.lists[k.sleepq]
    ensures SleepSame(k, Release(k, q, n))
  {
    var l, k' := k.lists[k.sleepq], Release(k, q, n);
    ReleaseEffect(k, q, n);
    assert forall p :: p in k.lists[q][..n] ==> p in k.lists[q];
    forall i | 0 <= i < |l|
      ensures k'.keys[l[i]] == k.keys[l[i]] && k'.procs[l[i]] == k.procs[l[i]]
    {
      assert l[i] in l;
      assert Released(k, k', k.lists[q][..n], l[i]);
    }
  }

  /** Releasing the waiters of a semaphore leaves the sleepers alone. */
  lemma EmptiedSleep(k: State, s: int, count: int)
    requires Inv(k) && !BadSem(k, s) && count >= 0
    ensures SemQueueApart(k, s) && SleepSame(k, Emptied(k, s, count))
  {
    var q := k.sems[s].squeue;
    var k1, n := DeferStart(k), |k.lists[q]|;
    assert forall p :: p in k.lists[q] ==> p !in k.lists[k.sleepq] by {
      assert PlacedOn(k, -1, q) && PlacedOn(k, -1, k.sleepq);
      forall p | p in k.lists[q] ensures p !in k.lists[k.sleepq] { var i :| 0 <= i < |k.lists[q]| && k.lists[q][i] == p; }
    }
    ReleaseSleep(k1, q, n);
    EmptiedCore(k, s, count);
    DeferStopSleep(WithCount(ReleaseAll(k, q, n), s, count));
  }

  lemma EmptiedCore(k: State, s: int, count: int)
    requires Inv(k) && !BadSem(k, s) && count >= 0
    ensures var q := k.sems[s].squeue;
            && q != k.readylist && q != k.sleepq
            && var k' := WithCount(ReleaseAll(k, q, |k.lists[q]|), s, count);
               Core(k', -1, -1) && CanStop(k') && k'.ndefers > 0
  {
    var q := k.sems[s].squeue;
    CoreSame(k, DeferStart(k), -1, -1);
    ReleaseWaiters(DeferStart(k), s, |k.lists[q]|);
    ReleaseAllKeepsCurrent(k, q, |k.lists[q]|);
    SettleCount(ReleaseAll(k, q, |k.lists[q]|), s, count);
  }

  lemma DeferStopSleep(k: State)
    requires Core(k, -1, -1) && k.ndefers >= 0 && CanStop(k)
    ensures SleepSame(k, DeferStop(k))
  {
    if k.ndefers == 1 && k.attempt {
      CoreSame(k, k.(ndefers := 0), -1, -1);
      ReschedSleep(k.(ndefers := 0));
    }
  }

  // The steps that leave the sleep queue alone

  ghost predicate Blocks(k: State, e: Event)
    requires Shape(k)
  {
    match e
    case EvSleep(d) => d != 0
    case EvRecvTime(m) => m >= 0 && !HasMessage(k)
    case _ => false
  }

  /** e takes the sleeping process p off the sleep queue. */
  ghost predicate Rouses(k: State, e: Event, p: int) {
    Asleep(k, p) && match e
                    case EvKill(r) => r == p
                    case EvSend(r, _) => r == p && k.procs[p].prstate == PR_RECTIM
                    case _ => false
  }

  ghost predicate Quiet(k: State, e: Event)
    requires Shape(k)
  {
    && !e.EvTick? && !Blocks(k, e)
    && (e.EvKill? ==> !Rouses(k, e, e.pid)) && (e.EvSend? ==> !Rouses(k, e, e.pid))
  }

  lemma AwakeEntry(k: State, p: int)
    requires Inv(k) && IsPid(k, p) && !Asleep(k, p)
    ensures forall i :: 0 <= i < |k.lists[k.sleepq]| ==> k.lists[k.sleepq][i] != p
  {
    AsleepQueued(k, p);
    NotInEntries(k.lists[k.sleepq], p);
  }

  lemma SleepSelf(k: State)
    requires Shape(k)
    ensures SleepSame(k, k)
  {
  }

  lemma QuietSemStep(k: State, e: Event)
    requires Inv(k) && Enabled(k, e)
    requires e.EvWait? || e.EvSignal? || e.EvSignalN? || e.EvSemReset? || e.EvSemDelete? || e.EvSemCreate?
    ensures SleepSame(k, Step(k, e))
  {
    hide Inv, Step, Enabled, SleepSame, SemUp, SemReset, SemDelete, Wait;
    InvApart(k);
    match e
    case EvWait(s) => StepWait(k, s); QuietWait(k, s);
    case EvSignal(s) => StepSignal(k, s); if UsedSem(k, s) { QuietSemUp(k, s); } else { SleepSelf(k); }
    case EvSignalN(s) => StepSignalN(k, s); QuietSemUp(k, s);
    case EvSemCreate(s, c) => StepSemCreate(k, s, c); QuietSemCreate(k, s, c);
    case EvSemReset(s, c) => StepReset(k, s, c); QuietReset(k, s, c);
    case EvSemDelete(s) => StepDelete(k, s); QuietDelete(k, s);
  }

  lemma QuietSemCreate(k: State, s: int, count: int)
    requires Shape(k) && !BadSem(k, s)
    ensures SleepSame(k, SemCreate(k, s, count))
  {
  }

  lemma QuietReset(k: State, s: int, count: int)
    requires Inv(k)
    ensures SemQueueApart(k, s) && SleepSame(k, SemReset(k, s, count))
  {
    hide Inv, Emptied, SleepSame;
    InvApart(k);
    if count >= 0 && UsedSem(k, s) { EmptiedSleep(k, s, count); } else { SleepSelf(k); }
  }

  lemma QuietDelete(k: State, s: int)
    requires Inv(k)
    ensures SemQueueApart(k, s) && SleepSame(k, SemDelete(k, s))
  {
    hide Inv, Emptied, SleepSame;
    InvApart(k);
    if UsedSem(k, s) {
      EmptiedSleep(k, s, (if k.sems[s].scount < 0 then 0 else k.sems[s].scount) + 1);
    } else {
      SleepSelf(k);
    }
  }

  lemma QuietWait(k: State, s: int)
    requires Inv(k) && k.conts[k.currpid] == Running
    requires UsedSem(k, s) && k.sems[s].scount <= 0 ==> MayBlock(k) && CanBlock(k)
    ensures SleepSame(k, Wait(k, s))
  {
    hide Inv, Core, Resched;
    InvApart(k);
    if UsedSem(k, s) && k.sems[s].scount <= 0 {
      CurrentInTransit(k);
      BlockOnCore(k, s);
      CurrentAsleep(k);
      ReschedSleep(Blocked(k, s));
      SleepSameTrans(k, Blocked(k, s), Wait(k, s));
    }
  }

  // The current process is not among the sleepers.
  lemma CurrentAsleep(k: State)
    requires Inv(k)
    ensures Shape(k) && k.procs[k.currpid].prstate == PR_CURR
    ensures forall i :: 0 <= i < |k.lists[k.sleepq]| ==> k.lists[k.sleepq][i] != k.currpid
  {
    AwakeEntry(k, k.currpid);
  }

  lemma QuietSemUp(k: State, s: int)
    requires Inv(k) && !BadSem(k, s)
    ensures k.sems[s].scount < 0 ==> k.lists[k.sems[s].squeue] != []
    ensures SleepSame(k, SemUp(k, s))
  {
    hide Inv, Core, Ready;
    InvApart(k);
    if k.sems[s].scount < 0 {
      UnwaitInTransit(k, s);
      CurrentAsleep(k);
      ReadySleep(Unwait(k, s), k.lists[k.sems[s].squeue][0]) by { WaitingNoReceive(k, s); }
      SleepSameTrans(k, Unwait(k, s), SemUp(k, s));
    }
  }

  // A waiter is not inside `receive`.
  lemma WaitingNoReceive(k: State, s: int)
    requires Inv(k) && !BadSem(k, s) && k.sems[s].scount < 0
    ensures var l := k.lists[k.sems[s].squeue]; l != [] && IsPid(k, l[0]) && k.conts[l[0]] == Running
  {
    UnwaitInTransit(k, s);
    hide Placed, ReadySorted, Tame, SemLaw, Top;
    assert MailOk(k.procs[k.lists[k.sems[s].squeue][0]], k.conts[k.lists[k.sems[s].squeue][0]]);
  }

  lemma QuietClockStep(k: State, e: Event)
    requires Inv(k) && Enabled(k, e) && Quiet(k, e)
    requires e.EvYield? || e.EvDeferStart? || e.EvDeferStop? || e.EvTickTail? || e.EvSleep?
    ensures SleepSame(k, Step(k, e))
  {
    hide Inv, Step, Enabled, SleepSame, Resched, DeferStop, TickTail, Core;
    InvApart(k);
    InvCore(k);
    match e
    case EvYield => StepYield(k); ReschedSleep(k);
    case EvDeferStart => StepDeferStart(k); QuietDeferStart(k);
    case EvDeferStop => StepDeferStop(k); DeferStopSleep(k);
    case EvTickTail => StepTickTail(k); QuietTickTail(k);
    case EvSleep(d) => StepSleep(k, d); ReschedSleep(k);
  }

  lemma InvCore(k: State)
    requires Inv(k)
    ensures Core(k, -1, -1) && Shape(k) && k.procs[k.currpid].prstate == PR_CURR
  {
    hide Placed, ReadySorted, Tame, SemLaw, Mail, Top;
  }

  lemma QuietDeferStart(k: State)
    requires Shape(k)
    ensures SleepSame(k, DeferStart(k))
  {
  }

  lemma QuietTickTail(k: State)
    requires Inv(k)
    ensures CanResched(k) && SleepSame(k, TickTail(k))
  {
    hide Inv, Core, Resched;
    InvCore(k);
    var k1 := WithCont(k, k.currpid, Running);
    var k2 := k1.(preempt := QUANTUM);
    ContInv(k, Running);
    SliceInv(k1, QUANTUM);
    InvCore(k2);
    ReschedSleep(k2);
  }

  lemma QuietMessageStep(k: State, e: Event)
    requires Inv(k) && Enabled(k, e) && Quiet(k, e)
    requires e.EvSend? || e.EvReceive? || e.EvReceiveTail? || e.EvRecvClr? || e.EvRecvTime? || e.EvRecvTimeTail?
    ensures SleepSame(k, Step(k, e))
  {
    hide Inv, Step, Enabled, Send, Receive;
    InvApart(k);
    CurrentAsleep(k);
    match e
    case EvSend(p, m) => StepSend(k, p, m); QuietSend(k, p, m);
    case EvReceive => StepReceive(k); QuietReceive(k);
    case EvReceiveTail => StepReceiveTail(k);
    case EvRecvClr => StepRecvClr(k);
    case EvRecvTime(m) => StepRecvTime(k, m);
    case EvRecvTimeTail => StepRecvTimeTail(k);
  }

  lemma QuietReceive(k: State)
    requires Inv(k) && k.conts[k.currpid] == Running && (!HasMessage(k) ==> MayBlock(k) && CanBlock(k))
    ensures SleepSame(k, Receive(k))
  {
    hide Inv, Core, Resched;
    InvApart(k);
    CurrentAsleep(k);
    var p := k.currpid;
    if !HasMessage(k) {
      CurrentInTransit(k);
      LandCore(k, p, k.procs[p].(prstate := PR_RECV), InReceive);
      var k1 := WithCont(WithState(k, p, PR_RECV), p, InReceive);
      ReschedSleep(k1);
      SleepSameTrans(k, k1, Receive(k));
    }
  }

  lemma QuietSend(k: State, p: int, msg: int)
    requires Inv(k) && (IsPid(k, p) ==> k.procs[p].prstate != PR_RECTIM)
    ensures SleepSame(k, Send(k, p, msg))
  {
    hide Inv, Core, Placed, Ready;
    InvApart(k);
    if !BadPid(k, p) && !k.procs[p].prhasmsg && k.procs[p].prstate == PR_RECV {
      ReceiverCore(k, p, msg);
      ReadySleep(Delivered(k, p, msg), p);
      SleepSameTrans(k, Delivered(k, p, msg), Send(k, p, msg));
    }
  }

  // A receiver that is given a message, before it is made ready.
  lemma ReceiverCore(k: State, p: int, msg: int)
    requires Inv(k) && IsPid(k, p) && k.procs[p].prstate == PR_RECV
    ensures Core(Delivered(k, p, msg), p, -1) && SleepSame(k, Delivered(k, p, msg))
    ensures p != k.currpid && k.procs[k.currpid].prstate == PR_CURR
  {
    PlacedOff(k, k, p);
    DeliverCore(k, p, msg);
    AwakeEntry(k, p);
  }

  lemma QuietProcessStep(k: State, e: Event)
    requires Inv(k) && Enabled(k, e) && Quiet(k, e)
    requires e.EvSuspend? || e.EvResume? || e.EvKill? || e.EvCreate?
    ensures SleepSame(k, Step(k, e))
  {
    hide Inv, Step, Enabled, Suspend, Resume, Kill, Create, SleepSame;
    InvApart(k);
    match e
    case EvSuspend(p) => StepSuspend(k, p); QuietSuspend(k, p);
    case EvResume(p) => StepResume(k, p); QuietResume(k, p);
    case EvKill(p) => StepKill(k, p); QuietKill(k, p);
    case EvCreate(p, prio) => StepCreate(k, p, prio); QuietCreate(k, p, prio);
  }

  lemma QuietResume(k: State, p: int)
    requires Inv(k)
    ensures SleepSame(k, Resume(k, p))
  {
    hide Ready;
    if !BadPid(k, p) && k.procs[p].prstate == PR_SUSP {
      PlacedOff(k, k, p);
      ReadySleep(k, p);
    }
  }

  lemma QuietCreate(k: State, p: int, prio: Prio)
    requires Inv(k) && IsPid(k, p) && k.procs[p].prstate == PR_FREE
    ensures SleepSame(k, Create(k, p, prio))
  {
    AwakeEntry(k, p);
  }

  lemma QuietSuspend(k: State, p: int)
    requires Inv(k) && (p == k.currpid && p != NULLPROC ==> k.ndefers == 0 && CanBlock(k))
    requires IsPid(k, p) && k.procs[p].prstate == PR_CURR ==> p == k.currpid
    ensures SleepSame(k, Suspend(k, p))
  {
    hide Inv, Core, Resched;
    InvApart(k);
    if !BadPid(k, p) && p != NULLPROC && k.procs[p].prstate in {PR_READY, PR_CURR} {
      AwakeEntry(k, p);
      if k.procs[p].prstate == PR_CURR {
        CurrentInTransit(k);
        SuspendedCore(k, p);
        ReschedSleep(WithState(k, p, PR_SUSP));
        SleepSameTrans(k, WithState(k, p, PR_SUSP), Suspend(k, p));
      }
    }
  }

  lemma SuspendedCore(k: State, p: int)
    requires Inv(k) && p == k.currpid && p != NULLPROC
    ensures Core(WithState(k, p, PR_SUSP), -1, -1)
  {
    CurrentInTransit(k);
    LandCore(k, p, k.procs[p].(prstate := PR_SUSP), k.conts[p]);
    assert k.conts[p := k.conts[p]] == k.conts;
  }

  lemma QuietKill(k: State, p: int)
    requires Inv(k) && (p == k.currpid && p != NULLPROC ==> k.ndefers == 0 && CanBlock(k)) && !Asleep(k, p)
    requires IsPid(k, p) && k.procs[p].prstate == PR_CURR ==> p == k.currpid
    requires IsPid(k, p) && k.procs[p].prstate == PR_WAIT ==> !BadSem(k, k.procs[p].prsem)
    ensures SleepSame(k, Kill(k, p))
  {
    hide Inv, Core, Resched;
    InvApart(k);
    if !BadPid(k, p) && p != NULLPROC {
      AwakeEntry(k, p);
      if k.procs[p].prstate == PR_CURR {
        CurrentInTransit(k);
        DeadCore(k, p);
        ReschedSleep(Dead(k, p));
        SleepSameTrans(k, Dead(k, p), Kill(k, p));
      }
    }
  }

  lemma QuietStep(k: State, e: Event)
    requires Inv(k) && Enabled(k, e) && Quiet(k, e)
    ensures SleepSame(k, Step(k, e))
  {
    hide Inv, Step, Enabled, SleepSame;
    if e.EvWait? || e.EvSignal? || e.EvSignalN? || e.EvSemReset? || e.EvSemDelete? || e.EvSemCreate? {
      QuietSemStep(k, e);
    } else if e.EvSuspend? || e.EvResume? || e.EvKill? || e.EvCreate? {
      QuietProcessStep(k, e);
    } else if e.EvYield? || e.EvDeferStart? || e.EvDeferStop? || e.EvTickTail? || e.EvSleep? {
      QuietClockStep(k, e);
    } else {
      QuietMessageStep(k, e);
    }
  }

  // The steps that change the sleep queue

  /** Going to sleep gives the caller exactly the delay asked for and moves no other deadline. */
  lemma GoToSleepDue(k: State, delay: int, s: PrState, p: int)
    requires Inv(k) && 0 <= delay && IsPid(k, p)
    ensures var k' := GoToSleep(k, delay, s);
            && (p == k.currpid || p in k.lists[k.sleepq] <==> p in k'.lists[k.sleepq])
            && (p == k.currpid ==> DueIn(k', p) == delay)
            && (p in k.lists[k.sleepq] ==> p != k.currpid && DueIn(k', p) == DueIn(k, p))
            && (Prompt(k) && delay >= 1 ==> Prompt(k'))
  {
    hide Inv, InsertAt, DeltaKeys, DeltaIndex, Agenda, Due;
    InvShape(k);
    var l, c := k.lists[k.sleepq], k.currpid;
    SleepersOnce(k);
    InsertDue(l, k.keys, c, delay, p);
    if Prompt(k) && delay >= 1 {
      InsertHead(l, k.keys, c, delay);
    }
  }

  // The sleepers are distinct and the current process is not one of them.
  lemma SleepersOnce(k: State)
    requires Inv(k)
    ensures Shape(k) && NoDup(k.lists[k.sleepq]) && k.currpid !in k.lists[k.sleepq]
  {
    CurrentAsleep(k);
    assert PlacedOn(k, -1, k.sleepq);
  }

  /** Leaving the sleep queue early moves no other deadline. */
  lemma UnsleepDue(k: State, r: int, p: int)
    requires Inv(k) && Asleep(k, r) && p in k.lists[k.sleepq] && p != r
    ensures var k' := Unsleep(k, r);
            && p in k'.lists[k.sleepq] && DueIn(k', p) == DueIn(k, p) && (Prompt(k) ==> Prompt(k'))
  {
    var l := k.lists[k.sleepq];
    AsleepQueued(k, r);
    UnsleepRefines(l, k.keys, r, 0);
    WithoutMembers(l, r);
    DueCancel(Agenda(l, k.keys, 0), r, p);
    if Prompt(k) {
      UnsleepPrompt(k, r);
    }
  }

  lemma UnsleepPrompt(k: State, r: int)
    requires Inv(k) && r in k.lists[k.sleepq] && Prompt(k)
    ensures Prompt(Unsleep(k, r))
  {
    var l := k.lists[k.sleepq];
    var i := IndexOf(l, r);
    assert 0 <= k.keys[l[i]];
    if i == 0 {
      WithoutHead(l);
    } else {
      assert Without(l, r)[0] == l[0];
    }
  }

  ghost function DelayOf(e: Event): int {
    match e
    case EvSleep(d) => d
    case EvRecvTime(m) => m
    case _ => 0
  }

  // The state of a caller that has just gone to sleep, before the context switch.
  ghost function Slept(k: State, e: Event): (k': State)
    requires Shape(k) && Blocks(k, e)
    ensures Shape(k')
  {
    if e.EvSleep? then GoToSleep(k, DelayOf(e), PR_SLEEP)
    else WithCont(GoToSleep(k, DelayOf(e), PR_RECTIM), k.currpid, InRecvTime)
  }

  lemma SleptStep(k: State, e: Event)
    requires Inv(k) && Enabled(k, e) && Blocks(k, e)
    ensures SleepSame(Slept(k, e), Step(k, e)) && k.currpid != NULLPROC
  {
    hide Inv, Step, Enabled, Core, Resched, DeltaKeys, DeltaIndex, InsertAt;
    InvApart(k);
    CurrentInTransit(k);
    if e.EvSleep? {
      StepSleep(k, e.delay);
      GoToSleepCore(k, e.delay, PR_SLEEP, Running);
      assert WithCont(Slept(k, e), k.currpid, Running) == Slept(k, e);
    } else {
      StepRecvTime(k, e.maxwait);
      GoToSleepCore(k, e.maxwait, PR_RECTIM, InRecvTime);
    }
    ReschedSleep(Slept(k, e));
  }

  // What going to sleep does to the deadlines, before the context switch.
  lemma SleptDue(k: State, e: Event, p: int)
    requires Inv(k) && Blocks(k, e) && DelayOf(e) >= 0 && IsPid(k, p)
    ensures var k' := Slept(k, e);
            && (p == k.currpid || p in k.lists[k.sleepq] <==> p in k'.lists[k'.sleepq])
            && (p == k.currpid ==>
                 DueIn(k', p) == DelayOf(e) && k'.procs[p].prstate == if e.EvSleep? then PR_SLEEP else PR_RECTIM)
            && (p in k.lists[k.sleepq] ==>
                 DueIn(k', p) == DueIn(k, p) && k'.procs[p].prstate == k.procs[p].prstate)
            && (Prompt(k) && DelayOf(e) >= 1 ==> Prompt(k'))
  {
    hide Inv, Agenda, Due, DeltaKeys, DeltaIndex, InsertAt;
    InvShape(k);
    GoToSleepDue(k, DelayOf(e), if e.EvSleep? then PR_SLEEP else PR_RECTIM, p);
  }

  /** A process that goes to sleep is due in exactly the delay it asked for; nobody else's deadline moves. */
  lemma BlockStep(k: State, e: Event, p: int)
    requires Inv(k) && Enabled(k, e) && Blocks(k, e) && IsPid(k, p)
    ensures var k' := Step(k, e);
            && (p == k.currpid ==>
                 && p in k'.lists[k'.sleepq] && DueIn(k', p) == DelayOf(e)
                 && k'.procs[p].prstate == (if e.EvSleep? then PR_SLEEP else PR_RECTIM))
            && (p in k.lists[k.sleepq] ==>
                 && p in k'.lists[k'.sleepq] && DueIn(k', p) == DueIn(k, p) && k'.procs[p].prstate == k.procs[p].prstate)
            && (Prompt(k) && DelayOf(e) >= 1 ==> Prompt(k'))
  {
    hide Inv, Step, Enabled, Slept, Prompt, DueIn;
    InvShape(k);
    SleptStep(k, e);
    DelayRange(k, e);
    SleptDue(k, e, p);
    SleptDue(k, e, k.currpid);
    if p in k.lists[k.sleepq] || p == k.currpid {
      SleepSameDue(Slept(k, e), Step(k, e), p);
    }
    SleepSameDue(Slept(k, e), Step(k, e), k.currpid);
  }

  lemma DelayRange(k: State, e: Event)
    requires Inv(k) && Enabled(k, e) && Blocks(k, e)
    ensures DelayOf(e) >= 0
  {
    hide Inv, Step, Enabled;
    if e.EvSleep? { StepSleep(k, e.delay); }
  }

  /** A sleeper killed or sent to leaves without moving anybody else's deadline. */
  lemma RouseStep(k: State, e: Event, r: int, p: int)
    requires Inv(k) && Enabled(k, e) && Rouses(k, e, r) && p in k.lists[k.sleepq] && p != r
    ensures var k' := Step(k, e);
            && p in k'.lists[k'.sleepq] && DueIn(k', p) == DueIn(k, p) && k'.procs[p].prstate == k.procs[p].prstate
            && (Prompt(k) ==> Prompt(k'))
  {
    hide Step, Placed, ReadySorted, Tame, SemLaw, Mail, Separate;
    UnsleepDue(k, r, p);
    RouseSleep(k, e, r);
    SleepSameDue(Unsleep(k, r), Step(k, e), p);
  }

  lemma RouseSleep(k: State, e: Event, r: int)
    requires Inv(k) && Enabled(k, e) && Rouses(k, e, r)
    ensures SleepSame(Unsleep(k, r), Step(k, e))
  {
    hide Inv, Step, Enabled, Send, SleepSame, Unsleep, Agenda, Due;
    InvShape(k);
    AsleepQueued(k, r);
    if e.EvSend? {
      StepSend(k, r, e.msg);
      RouseSend(k, r, e.msg);
    } else {
      StepKill(k, r);
      RouseKill(k, r);
    }
  }

  lemma RouseKill(k: State, r: int)
    requires Inv(k) && Asleep(k, r) && r in k.lists[k.sleepq]
    requires r == k.currpid && r != NULLPROC ==> CanBlock(k)
    requires k.procs[r].prstate == PR_CURR ==> r == k.currpid
    requires k.procs[r].prstate == PR_WAIT ==> !BadSem(k, k.procs[r].prsem)
    ensures SleepSame(Unsleep(k, r), Kill(k, r))
  {
    hide Inv, GiveBack, Without;
    InvApart(k);
    NullAwake(k, r);
    RousedOther(k, r);
  }

  lemma NullAwake(k: State, r: int)
    requires Inv(k) && Asleep(k, r)
    ensures r != NULLPROC
  {
    hide Placed, ReadySorted, Tame, SemLaw, Mail, Top;
  }

  lemma RouseSend(k: State, r: int, msg: int)
    requires Inv(k) && IsPid(k, r) && k.procs[r].prstate == PR_RECTIM && r in k.lists[k.sleepq]
    ensures !k.procs[r].prhasmsg && SleepSame(Unsleep(k, r), Send(k, r, msg))
  {
    hide Inv, Core, Ready, GiveBack, Without;
    InvApart(k);
    InvCore(k);
    var k1 := Unsleep(Delivered(k, r, msg), r);
    TimedMail(k, r);
    UnsleepCore(k, r, -1);
    DeliverCore(Unsleep(k, r), r, msg);
    RousedOther(k, r);
    assert k1 == Delivered(Unsleep(k, r), r, msg);
    ReadySleep(k1, r);
    SleepSameTrans(Unsleep(k, r), k1, Send(k, r, msg));
  }

  // A process inside `recvtime` has no message.
  lemma TimedMail(k: State, r: int)
    requires Inv(k) && IsPid(k, r) && k.procs[r].prstate == PR_RECTIM
    ensures !k.procs[r].prhasmsg && k.conts[r] == InRecvTime && r != k.currpid
  {
    hide Placed, ReadySorted, Tame, SemLaw, Top;
    assert MailOk(k.procs[r], k.conts[r]);
  }

  lemma RousedOther(k: State, r: int)
    requires Inv(k) && r in k.lists[k.sleepq]
    ensures forall i :: 0 <= i < |Unsleep(k, r).lists[k.sleepq]| ==> Unsleep(k, r).lists[k.sleepq][i] != r
  {
    assert PlacedOn(k, -1, k.sleepq);
    WithoutMembers(k.lists[k.sleepq], r);
    NotInEntries(Unsleep(k, r).lists[k.sleepq], r);
  }

  // The clock tick

  /** With no deadline overdue, one tick brings every deadline one closer. */
  lemma HeadDownDue(k: State, p: int)
    requires Inv(k) && p in k.lists[k.sleepq]
    ensures var k' := HeadDown(k);
            p in k'.lists[k'.sleepq] && DueIn(k', p) == DueIn(k, p) - 1 && k'.procs == k.procs
  {
    var l := k.lists[k.sleepq];
    assert PlacedOn(k, -1, k.sleepq);
    ShiftHead(l, k.keys, -1, 0);
    DueBase(l, k.keys, 0, -1, p);
  }

  // Deferral and counters do not touch the sleepers.
  /** `wakeup` makes exactly the processes that are due ready, and moves nobody's deadline. */
  lemma WakeupDue(k: State, p: int)
    requires Inv(k) && p in k.lists[k.sleepq]
    ensures k.readylist != k.sleepq
    ensures DueIn(k, p) >= 0
    ensures var k' := Wakeup(k);
            && (DueIn(k, p) == 0 ==> k'.procs[p].prstate in {PR_READY, PR_CURR})
            && (DueIn(k, p) > 0 ==>
                 && p in k'.lists[k'.sleepq] && DueIn(k', p) == DueIn(k, p) && k'.procs[p].prstate == k.procs[p].prstate)
            && Prompt(k')
  {
    var l, n := k.lists[k.sleepq], Expired(k.lists[k.sleepq], k.keys);
    var k1 := DeferStart(k);
    var k2 := Release(k1, k.sleepq, n);
    assert PlacedOn(k, -1, k.sleepq);
    ExpiredAreDue(l, k.keys, p);
    DueAtLeast(l, k.keys, 0, p);
    ReleasedDue(k1, n, p);
    WakeCore(k);
    DeferStopSleep(k2);
    ReadyStays(k2, p);
    if p in l[n..] {
      SleepSameDue(k2, Wakeup(k), p);
    }
    assert Prompt(k2) && Prompt(Wakeup(k));
  }

  lemma WakeCore(k: State)
    requires Inv(k)
    ensures var k2 := ReleaseAll(k, k.sleepq, Expired(k.lists[k.sleepq], k.keys));
            Core(k2, -1, -1) && CanStop(k2) && k2.ndefers > 0 && k2.procs[k2.currpid].prstate == PR_CURR
  {
    var n := Expired(k.lists[k.sleepq], k.keys);
    CoreSame(k, DeferStart(k), -1, -1);
    ReleaseSleepers(DeferStart(k), n);
    ReleaseAllKeepsCurrent(k, k.sleepq, n);
  }

  lemma ReleasedDue(k: State, n: nat, p: int)
    requires Shape(k) && k.sleepq != k.readylist && k.ndefers > 0 && n == Expired(k.lists[k.sleepq], k.keys)
    requires p in k.lists[k.sleepq] && NoDup(k.lists[k.sleepq])
    ensures var l, k' := k.lists[k.sleepq], Release(k, k.sleepq, n);
            && (p in l[..n] ==> k'.procs[p].prstate == PR_READY)
            && (p in l[n..] && p !in l[..n] ==>
                 k'.procs[p] == k.procs[p] && Some(DueIn(k', p)) == Due(Agenda(l[n..], k.keys, 0), p))
            && Prompt(k')
  {
    var l, k' := k.lists[k.sleepq], Release(k, k.sleepq, n);
    ReleaseEffect(k, k.sleepq, n);
    assert Released(k, k', l[..n], p);
    var m := l[n..];
    forall i | 0 <= i < |m|
      ensures k'.keys[m[i]] == k.keys[m[i]]
    {
      assert m[i] == l[n + i] && m[i] !in l[..n];
      assert Released(k, k', l[..n], m[i]);
    }
    AgendaFrame(m, k.keys, k'.keys, 0);
    DueBase(m, k.keys, 0, 0, p);
    ExpiredEnd(l, k.keys);
    if m != [] { assert m[0] == l[n]; }
  }

  // A ready process stays ready or becomes current when a deferral ends.
  lemma ReadyStays(k: State, p: int)
    requires Core(k, -1, -1) && k.ndefers > 0 && CanStop(k) && k.procs[k.currpid].prstate == PR_CURR && IsPid(k, p)
    ensures k.procs[p].prstate == PR_READY ==> DeferStop(k).procs[p].prstate in {PR_READY, PR_CURR}
  {
  }

  /** One clock interrupt, nobody being overdue: whoever is due wakes, everyone else is one tick closer. */
  lemma TickStep(k: State, p: int)
    requires Inv(k) && Prompt(k) && p in k.lists[k.sleepq]
    ensures k.readylist != k.sleepq && DueIn(k, p) >= 1
    ensures var k' := Tick(k);
            && (DueIn(k, p) == 1 ==> k'.procs[p].prstate in {PR_READY, PR_CURR})
            && (DueIn(k, p) > 1 ==>
                 && p in k'.lists[k'.sleepq] && DueIn(k', p) == DueIn(k, p) - 1
                 && k'.procs[p].prstate == k.procs[p].prstate)
  {
    hide Inv, Wakeup, Agenda, Due;
    InvApart(k);
    var k1 := WithCont(k, k.currpid, InTick);
    ContInv(k, InTick);
    InvShape(k1);
    HeadDownInv(k1);
    HeadDownDue(k1, p);
    DueBounds(HeadDown(k1), p);
    WakeupDue(HeadDown(k1), p);
  }

  lemma DueBounds(k: State, p: int)
    requires Inv(k) && p in k.lists[k.sleepq]
    ensures DueIn(k, p) >= 0 && (Prompt(k) ==> DueIn(k, p) >= 1)
  {
    hide Placed, ReadySorted, SemLaw, Mail, Top;
    DueAtLeast(k.lists[k.sleepq], k.keys, 0, p);
  }

  lemma TickPrompt(k: State)
    requires Inv(k) && Prompt(k)
    ensures k.readylist != k.sleepq && Prompt(Tick(k))
  {
    hide Inv, Wakeup;
    InvApart(k);
    var k1 := WithCont(k, k.currpid, InTick);
    ContInv(k, InTick);
    InvShape(k1);
    var l := k.lists[k.sleepq];
    if l != [] {
      HeadDownInv(k1);
      assert l[0] in l;
      WakeupDue(HeadDown(k1), l[0]);
    }
  }

  // Runs

  ghost predicate IsZeroWait(e: Event) {
    e == EvRecvTime(0)
  }

  lemma PromptStep(k: State, e: Event)
    requires Inv(k) && Prompt(k) && Enabled(k, e) && !IsZeroWait(e)
    ensures Prompt(Step(k, e))
  {
    hide Inv, Step, Enabled, Prompt, Unsleep, Agenda, Due;
    InvShape(k);
    if e.EvTick? {
      StepTick(k);
      TickPrompt(k);
    } else if Blocks(k, e) {
      DelayRange(k, e);
      BlockStep(k, e, k.currpid);
    } else if (e.EvKill? || e.EvSend?) && Rouses(k, e, e.pid) {
      AsleepQueued(k, e.pid);
      UnsleepPrompt(k, e.pid);
      RouseSleep(k, e, e.pid);
      SamePrompt(Unsleep(k, e.pid), Step(k, e));
    } else {
      QuietStep(k, e);
      SamePrompt(k, Step(k, e));
    }
  }

  lemma SamePrompt(k: State, k': State)
    requires SleepSame(k, k')
    ensures Prompt(k') == Prompt(k)
  {
  }

  /** What one step of the kernel does to a sleeping process that it does not itself take off the queue. */
  lemma SleeperStep(k: State, e: Event, p: int)
    requires Inv(k) && Prompt(k) && Enabled(k, e) && p in k.lists[k.sleepq] && !Rouses(k, e, p)
    ensures DueIn(k, p) >= 1
    ensures var k' := Step(k, e);
            if e.EvTick? && DueIn(k, p) == 1 then
              k'.procs[p].prstate in {PR_READY, PR_CURR}
            else
              && Shape(k') && p in k'.lists[k'.sleepq] && k'.procs[p].prstate == k.procs[p].prstate
              && DueIn(k', p) == DueIn(k, p) - (if e.EvTick? then 1 else 0)
  {
    hide Inv, Step, Enabled, Prompt, DueIn, Tick, Unsleep;
    InvShape(k);
    InvShape(Step(k, e));
    TickStep(k, p);
    if e.EvTick? {
      StepTick(k);
    } else if Blocks(k, e) {
      BlockStep(k, e, p);
    } else if (e.EvKill? || e.EvSend?) && Rouses(k, e, e.pid) {
      RouseStep(k, e, e.pid, p);
    } else {
      QuietStep(k, e);
      SleepSameDue(k, Step(k, e), p);
    }
  }

  ghost function Ticks(es: seq<Event>): nat {
    if es == [] then 0 else (if es[0].EvTick? then 1 else 0) + Ticks(es[1..])
  }

  /** No step of the run kills the sleeper or, if it sleeps in `recvtime`, sends to it. */
  ghost predicate Undisturbed(s: PrState, es: seq<Event>, p: int) {
    forall i :: 0 <= i < |es| ==> es[i] != EvKill(p) && !(s == PR_RECTIM && es[i].EvSend? && es[i].pid == p)
  }

  ghost predicate NoZeroWait(es: seq<Event>) {
    forall i :: 0 <= i < |es| ==> !IsZeroWait(es[i])
  }

  // While fewer ticks pass than its deadline, a sleeper stays asleep.
  lemma {:induction false} StillAsleep(k: State, p: int, es: seq<Event>)
    requires Inv(k) && Prompt(k) && Runs(k, es) && IsPid(k, p) && p in k.lists[k.sleepq]
    requires Undisturbed(k.procs[p].prstate, es, p) && NoZeroWait(es) && Ticks(es) < DueIn(k, p)
    ensures var k' := Exec(k, es);
            && Prompt(k') && IsPid(k', p) && p in k'.lists[k'.sleepq]
            && DueIn(k', p) == DueIn(k, p) - Ticks(es) && k'.procs[p].prstate == k.procs[p].prstate
    decreases |es|
  {
    hide Inv, Step, Enabled, Prompt, DueIn, Undisturbed, NoZeroWait;
    if es != [] {
      var e, k1 := es[0], Step(k, es[0]);
      RestOfRun(k, k.procs[p].prstate, es, p);
      SleeperStep(k, e, p);
      PromptStep(k, e);
      StillAsleep(k1, p, es[1..]);
    }
  }

  lemma RestOfRun(k: State, s: PrState, es: seq<Event>, p: int)
    requires es != [] && Undisturbed(s, es, p) && NoZeroWait(es)
    ensures Undisturbed(s, es[1..], p) && NoZeroWait(es[1..]) && !IsZeroWait(es[0])
    ensures IsPid(k, p) && k.procs[p].prstate == s ==> !Rouses(k, es[0], p)
  {
  }

  /** Exact wake-up. Whatever system calls, interrupts, other sleepers and early withdrawals happen meanwhile: a
      sleeping process with deadline d is still asleep, due in d - t ticks, after any run with t < d ticks; and tick
      number d makes it ready. */
  lemma ExactWakeup(k: State, p: int, es: seq<Event>)
    requires Inv(k) && Prompt(k) && Runs(k, es) && IsPid(k, p) && p in k.lists[k.sleepq]
    requires Undisturbed(k.procs[p].prstate, es, p) && NoZeroWait(es) && Ticks(es) < DueIn(k, p)
    ensures var k', left := Exec(k, es), DueIn(k, p) - Ticks(es);
            && p in k'.lists[k'.sleepq] && DueIn(k', p) == left && k'.procs[p].prstate == k.procs[p].prstate
            && (Enabled(k', EvTick) && left == 1 ==> Step(k', EvTick).procs[p].prstate in {PR_READY, PR_CURR})
  {
    StillAsleep(k, p, es);
    if Enabled(Exec(k, es), EvTick) {
      SleeperStep(Exec(k, es), EvTick, p);
    }
  }

  /** A process that calls `sleepms` or `recvtime` with a delay of at least one tick, and blocks, starts such a sleep.
      */
  lemma SleepsExactly(k: State, e: Event, es: seq<Event>)
    requires Inv(k) && Prompt(k) && Enabled(k, e) && Blocks(k, e) && DelayOf(e) >= 1
    requires Runs(Step(k, e), es)
    requires Undisturbed(if e.EvSleep? then PR_SLEEP else PR_RECTIM, es, k.currpid) && NoZeroWait(es)
    requires Ticks(es) < DelayOf(e)
    ensures var p, k', left := k.currpid, Exec(Step(k, e), es), DelayOf(e) - Ticks(es);
            && p in k'.lists[k'.sleepq] && DueIn(k', p) == left
            && (Enabled(k', EvTick) && left == 1 ==> Step(k', EvTick).procs[p].prstate in {PR_READY, PR_CURR})
  {
    BlockStep(k, e, k.currpid);
    PromptStep(k, e);
    ExactWakeup(Step(k, e), k.currpid, es);
  }

  // A delay of zero

  /** The next tick brings the deadline of p one closer, or wakes p when that is what is left. */
  ghost predicate ExactTick(k: State, p: int)
    requires Inv(k) && IsPid(k, p) && p in k.lists[k.sleepq]
  {
    var k' := Tick(k);
    if DueIn(k, p) == 1 then k'.procs[p].prstate in {PR_READY, PR_CURR}
    else p in k'.lists[k'.sleepq] && DueIn(k', p) == DueIn(k, p) - 1
  }

  /** A head that is overdue absorbs a whole tick: nobody else comes any closer. */
  lemma LostTick(k: State, p: int)
    requires Inv(k) && !Prompt(k) && IsPid(k, p) && p in k.lists[k.sleepq] && DueIn(k, p) >= 1
    ensures var k' := Tick(k);
            && p in k'.lists[k'.sleepq] && DueIn(k', p) == DueIn(k, p)
            && k'.procs[p].prstate == k.procs[p].prstate && Asleep(k, p)
  {
    var k1 := WithCont(k, k.currpid, InTick);
    ContInv(k, InTick);
    assert 0 <= k.keys[k.lists[k.sleepq][0]];
    ZeroHeadTick(k1);
    WakeupDue(k1, p);
    AsleepQueued(k, p);
  }

  /** A tick is exact for the processes still to be due if and only if the first sleeper is not already due, which
      is the case as long as nobody blocks in recvtime(0). */
  lemma TicksExactIff(k: State, p: int)
    requires Inv(k) && IsPid(k, p) && p in k.lists[k.sleepq] && DueIn(k, p) >= 1
    ensures ExactTick(k, p) <==> Prompt(k)
  {
    hide Tick;
    if Prompt(k) {
      TickStep(k, p);
    } else {
      LostTick(k, p);
    }
  }

  /** Blocking in recvtime(0) makes every other sleeper wait one tick longer than it asked for. */
  lemma ZeroWaitDelays(k: State, p: int)
    requires Inv(k) && Prompt(k) && Enabled(k, EvRecvTime(0)) && Blocks(k, EvRecvTime(0))
    requires IsPid(k, p) && p in k.lists[k.sleepq]
    ensures var k1 := Step(k, EvRecvTime(0));
            var k2 := Tick(k1);
            p in k2.lists[k2.sleepq] && DueIn(k2, p) == DueIn(k, p) >= 1
  {
    var e, c := EvRecvTime(0), k.currpid;
    TickStep(k, p);
    BlockStep(k, e, p);
    BlockStep(k, e, c);
    var k1 := Step(k, e);
    if Prompt(k1) {
      TickStep(k1, c);
    }
    LostTick(k1, p);
  }

  /** Unless the caller of recvtime(0) leaves the queue first: then nobody is overdue, and the next tick is exact. */
  lemma ZeroWaitUndone(k: State, e: Event)
    requires Inv(k) && Prompt(k) && Enabled(k, EvRecvTime(0)) && Blocks(k, EvRecvTime(0))
    requires Enabled(Step(k, EvRecvTime(0)), e) && Rouses(Step(k, EvRecvTime(0)), e, k.currpid)
    ensures Prompt(Step(Step(k, EvRecvTime(0)), e))
  {
    hide Inv, Step, Enabled, Unsleep;
    var z, c := EvRecvTime(0), k.currpid;
    var k1 := Step(k, z);
    InvShape(k);
    InvShape(k1);
    SleptStep(k, z);
    ZeroFirst(k);
    WithoutZero(Slept(k, z), k1);
    RouseSleep(k1, e, c);
    SamePrompt(Unsleep(k1, c), Step(k1, e));
  }

  // A caller with delay zero goes first when nobody is overdue.
  lemma ZeroFirst(k: State)
    requires Inv(k) && Prompt(k) && Blocks(k, EvRecvTime(0))
    ensures var k', c := Slept(k, EvRecvTime(0)), k.currpid;
            var l := k'.lists[k'.sleepq];
            && k'.sleepq == k.sleepq && l == [c] + k.lists[k.sleepq] && NoDup(l) && k'.keys[c] == 0
            && (|l| > 1 ==> k'.keys[l[1]] >= 1)
  {
    hide Inv;
    InvShape(k);
    SleepersOnce(k);
    assert InsertAt(k.lists[k.sleepq], 0, k.currpid) == [k.currpid] + k.lists[k.sleepq];
  }

  lemma WithoutZero(k: State, k1: State)
    requires SleepSame(k, k1) && k.lists[k.sleepq] != [] && NoDup(k.lists[k.sleepq])
    requires var l := k.lists[k.sleepq]; k.keys[l[0]] == 0 && (|l| > 1 ==> k.keys[l[1]] >= 1)
    ensures Prompt(Unsleep(k1, k.lists[k.sleepq][0]))
  {
    WithoutHead(k1.lists[k.sleepq]);
    assert IndexOf(k1.lists[k.sleepq], k.lists[k.sleepq][0]) == 0;
  }
}
