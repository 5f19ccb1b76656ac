/** Semaphores over whole runs (Chapter 7): tokens are conserved, the number of completed waits is exactly what the
    initial count and the signals allow, and waiters are released in the order in which they came. */
module Semaphores {
  import opened Types
  import opened Lists
  import opened Queue
  import opened Delta
  import opened KernelState
  import opened KernelInv
  import opened KernelRuns
  import opened Wakeups

  ghost function Line(k: State, s: int): seq<int>
    requires Shape(k) && !BadSem(k, s)
  {
    k.lists[k.sems[s].squeue]
  }

  ghost function Count(k: State, s: int): int
    requires !BadSem(k, s)
  {
    k.sems[s].scount
  }

  ghost predicate Waits(k: State, e: Event, s: int)
  {
    e == EvWait(s) && UsedSem(k, s)
  }

  ghost predicate Ups(k: State, e: Event, s: int)
  {
    (e == EvSignal(s) && UsedSem(k, s)) || e == EvSignalN(s)
  }

  /** e kills process p while it waits on s. */
  ghost predicate Withdraws(k: State, e: Event, s: int)
  {
    e.EvKill? && IsPid(k, e.pid) && k.procs[e.pid].prstate == PR_WAIT && k.procs[e.pid].prsem == s && e.pid != NULLPROC
  }

  /** e sets the count of s anew. */
  ghost predicate Empties(e: Event, s: int) {
    (e.EvSemReset? || e.EvSemDelete? || e.EvSemCreate?) && e.sem == s
  }

  /** Semaphore s and its queue are the same. */
  ghost predicate SemSame(k: State, k': State, s: int) {
    && Shape(k) && Shape(k') && SameTables(k, k') && !BadSem(k, s)
    && k'.sems[s] == k.sems[s] && Line(k', s) == Line(k, s)
  }

  lemma ReschedSem(k: State, s: int)
    requires Shape(k) && CanResched(k) && !BadSem(k, s) && k.sems[s].squeue != k.readylist
    ensures SemSame(k, Resched(k), s)
  {
  }

  lemma ReleaseSem(k: State, q: int, n: nat, s: int)
    requires Shape(k) && q in k.lists && q != k.readylist && n <= |k.lists[q]| && k.ndefers > 0
    requires !BadSem(k, s) && k.sems[s].squeue != k.readylist && k.sems[s].squeue != q
    ensures SemSame(k, Release(k, q, n), s)
  {
    ReleaseEffect(k, q, n);
  }

  lemma DeferStopSem(k: State, s: int)
    requires Shape(k) && CanStop(k) && !BadSem(k, s) && k.sems[s].squeue != k.readylist
    ensures SemSame(k, DeferStop(k), s)
  {
  }

  /** Emptying one semaphore leaves the others alone. */
  lemma EmptiedSem(k: State, t: int, count: int, s: int)
    requires Inv(k) && !BadSem(k, t) && count >= 0 && !BadSem(k, s) && s != t
    ensures SemQueueApart(k, t) && SemSame(k, Emptied(k, t, count), s)
  {
    var q := k.sems[t].squeue;
    EmptiedCore(k, t, count);
    assert k.sems[s].squeue != q by {
      var a, b := if s < t then s else t, if s < t then t else s;
      assert k.sems[a].squeue != k.sems[b].squeue;
    }
    ReleaseSem(DeferStart(k), q, |k.lists[q]|, s);
    DeferStopSem(WithCount(ReleaseAll(k, q, |k.lists[q]|), t, count), s);
  }

  /** Emptying a semaphore leaves exactly the count asked for and nobody waiting. */
  lemma EmptiedHere(k: State, s: int, count: int)
    requires Inv(k) && !BadSem(k, s) && count >= 0
    ensures SemQueueApart(k, s) && Count(Emptied(k, s, count), s) == count && Line(Emptied(k, s, count), s) == []
  {
    EmptiedCore(k, s, count);
    DeferStopSem(WithCount(ReleaseAll(k, k.sems[s].squeue, |Line(k, s)|), s, count), s);
  }

  lemma WakeupSem(k: State, s: int)
    requires Shape(k) && k.readylist != k.sleepq && k.ndefers >= 0
    requires !BadSem(k, s) && k.sems[s].squeue != k.readylist && k.sems[s].squeue != k.sleepq
    ensures SemSame(k, Wakeup(k), s)
  {
    var n := Expired(k.lists[k.sleepq], k.keys);
    ReleaseSem(DeferStart(k), k.sleepq, n, s);
    DeferStopSem(ReleaseAll(k, k.sleepq, n), s);
  }

  // The effect of each call on semaphore s

  lemma WaitSem(k: State, t: int, s: int)
    requires Inv(k) && !BadSem(k, s) && (UsedSem(k, t) && k.sems[t].scount <= 0 ==> CanBlock(k))
    ensures var k' := Wait(k, t);
            if t == s && UsedSem(k, s) then
              && Count(k', s) == Count(k, s) - 1
              && Line(k', s) == (if Count(k, s) <= 0 then Line(k, s) + [k.currpid] else Line(k, s))
            else SemSame(k, k', s)
  {
    if UsedSem(k, t) && k.sems[t].scount <= 0 {
      ReschedSem(Blocked(k, t), s);
      if s != t {
        SeparateSems(k, s, t);
      }
    }
  }

  lemma SeparateSems(k: State, s: int, t: int)
    requires Inv(k) && !BadSem(k, s) && !BadSem(k, t) && s != t
    ensures k.sems[s].squeue != k.sems[t].squeue
  {
    if s < t {
      assert k.sems[s].squeue != k.sems[t].squeue;
    } else {
      assert k.sems[t].squeue != k.sems[s].squeue;
    }
  }

  lemma UpSem(k: State, t: int, s: int)
    requires Inv(k) && !BadSem(k, s) && !BadSem(k, t)
    ensures Count(k, t) < 0 ==> Line(k, t) != []
    ensures var k' := SemUp(k, t);
            if t == s then
              && Count(k', s) == Count(k, s) + 1
              && Line(k', s) == (if Count(k, s) < 0 then Line(k, s)[1..] else Line(k, s))
              && (Count(k, s) < 0 ==> k'.procs[Line(k, s)[0]].prstate in {PR_READY, PR_CURR})
            else SemSame(k, k', s)
  {
    if Count(k, t) < 0 {
      UnwaitInTransit(k, t);
      UnwaitSem(k, t, s);
      ReleasedRuns(Unwait(k, t), Line(k, t)[0]);
      EnrolledSem(Unwait(k, t), Line(k, t)[0], s);
    }
  }

  lemma UnwaitSem(k: State, t: int, s: int)
    requires Inv(k) && !BadSem(k, s) && !BadSem(k, t) && Line(k, t) != []
    ensures if t == s then Count(Unwait(k, t), s) == Count(k, s) + 1 && Line(Unwait(k, t), s) == Line(k, s)[1..]
            else SemSame(k, Unwait(k, t), s)
    ensures k.sems[s].squeue != k.readylist
  {
    if s != t {
      SeparateSems(k, s, t);
    }
  }

  lemma EnrolledSem(k: State, p: int, s: int)
    requires Shape(k) && IsPid(k, p) && !BadSem(k, s) && k.sems[s].squeue != k.readylist
    ensures SemSame(k, Ready(k, p), s)
  {
    ReschedSem(Enroll(k, p), s);
  }

  // A process made ready is ready or current when the call ends.
  lemma ReleasedRuns(k: State, p: int)
    requires Shape(k) && IsPid(k, p)
    ensures Ready(k, p).procs[p].prstate in {PR_READY, PR_CURR}
  {
    hide FirstKey, InsertAt, PrioIndex, Pids;
  }

  lemma KillSem(k: State, p: int, s: int)
    requires Inv(k) && !BadSem(k, s) && (p == k.currpid && p != NULLPROC ==> CanBlock(k))
    ensures var k' := Kill(k, p);
            if Withdraws(k, EvKill(p), s) then
              && Count(k', s) == Count(k, s) + 1 && Line(k', s) == Without(Line(k, s), p) && p in Line(k, s)
            else SemSame(k, k', s)
  {
    hide Inv, Resched, Without, GiveBack;
    InvApart(k);
    if !BadPid(k, p) && p != NULLPROC {
      if k.procs[p].prstate == PR_WAIT {
        KillWaiterSem(k, p, s);
      } else if k.procs[p].prstate == PR_CURR {
        CurrentOnly(k, p);
        ReschedSem(Dead(k, p), s);
      }
    }
  }

  lemma KillWaiterSem(k: State, p: int, s: int)
    requires Inv(k) && !BadSem(k, s) && IsPid(k, p) && k.procs[p].prstate == PR_WAIT && p != NULLPROC
    ensures !BadSem(k, k.procs[p].prsem)
    ensures var k' := Kill(k, p);
            if k.procs[p].prsem == s then
              && Count(k', s) == Count(k, s) + 1 && Line(k', s) == Without(Line(k, s), p) && p in Line(k, s)
            else SemSame(k, k', s)
  {
    hide Inv, Kill, Without;
    InvApart(k);
    WaiterQueue(k, p);
    if k.procs[p].prsem != s {
      SeparateSems(k, s, k.procs[p].prsem);
    }
  }

  lemma CurrentOnly(k: State, p: int)
    requires Inv(k) && IsPid(k, p) && k.procs[p].prstate == PR_CURR
    ensures p == k.currpid
  {
    hide Placed, ReadySorted, Tame, SemLaw, Mail, Top;
  }

  lemma TickSem(k: State, s: int)
    requires Inv(k) && !BadSem(k, s)
    ensures SemSame(k, Tick(k), s)
  {
    hide Inv, Wakeup;
    InvApart(k);
    if k.lists[k.sleepq] != [] {
      WakeupSem(HeadDown(WithCont(k, k.currpid, InTick)), s);
    }
  }

  lemma ClockSem(k: State, e: Event, s: int)
    requires Inv(k) && Enabled(k, e) && !BadSem(k, s)
    requires e.EvYield? || e.EvDeferStart? || e.EvDeferStop? || e.EvTickTail? || e.EvSleep?
    ensures SemSame(k, Step(k, e), s)
  {
    hide Inv, Step, Enabled, Resched, DeferStop, DeltaKeys, DeltaIndex;
    InvApart(k);
    match e
    case EvYield => StepYield(k); ReschedSem(k, s);
    case EvDeferStart => StepDeferStart(k);
    case EvDeferStop => StepDeferStop(k); DeferStopSem(k, s);
    case EvTickTail =>
      StepTickTail(k);
      if k.preempt - 1 <= 0 { ReschedSem(WithCont(k, k.currpid, Running).(preempt := QUANTUM), s); }
    case EvSleep(d) =>
      StepSleep(k, d);
      if d == 0 { ReschedSem(k, s); } else { ReschedSem(GoToSleep(k, d, PR_SLEEP), s); }
  }

  lemma MessageSem(k: State, e: Event, s: int)
    requires Inv(k) && Enabled(k, e) && !BadSem(k, s)
    requires e.EvReceive? || e.EvReceiveTail? || e.EvRecvClr? || e.EvRecvTime? || e.EvRecvTimeTail?
    ensures SemSame(k, Step(k, e), s)
  {
    hide Inv, Step, Enabled, Resched, DeltaKeys, DeltaIndex;
    InvApart(k);
    match e
    case EvReceive =>
      StepReceive(k);
      if !HasMessage(k) { ReschedSem(WithCont(WithState(k, k.currpid, PR_RECV), k.currpid, InReceive), s); }
    case EvRecvTime(m) =>
      StepRecvTime(k, m);
      if m >= 0 && !HasMessage(k) { ReschedSem(WithCont(GoToSleep(k, m, PR_RECTIM), k.currpid, InRecvTime), s); }
    case EvReceiveTail => StepReceiveTail(k);
    case EvRecvClr => StepRecvClr(k);
    case EvRecvTimeTail => StepRecvTimeTail(k);
  }

  lemma SendSem(k: State, r: int, msg: int, s: int)
    requires Inv(k) && !BadSem(k, s)
    ensures SemSame(k, Send(k, r, msg), s)
  {
    hide Inv, Ready, GiveBack, Without;
    InvApart(k);
    if !BadPid(k, r) && !k.procs[r].prhasmsg {
      match k.procs[r].prstate
      case PR_RECV => EnrolledSem(Delivered(k, r, msg), r, s);
      case PR_RECTIM => EnrolledSem(Unsleep(Delivered(k, r, msg), r), r, s);
      case _ =>
    }
  }

  lemma ProcessSem(k: State, e: Event, s: int)
    requires Inv(k) && Enabled(k, e) && !BadSem(k, s)
    requires e.EvSuspend? || e.EvResume? || e.EvCreate?
    ensures SemSame(k, Step(k, e), s)
  {
    hide Inv, Step, Enabled, Ready, Suspend;
    InvApart(k);
    match e
    case EvSuspend(p) => StepSuspend(k, p); SuspendSem(k, p, s);
    case EvResume(p) => StepResume(k, p); if !BadPid(k, p) { EnrolledSem(k, p, s); }
    case EvCreate(p, prio) => StepCreate(k, p, prio);
  }

  lemma SuspendSem(k: State, p: int, s: int)
    requires Inv(k) && !BadSem(k, s) && (p == k.currpid && p != NULLPROC ==> CanBlock(k))
    ensures SemSame(k, Suspend(k, p), s)
  {
    hide Inv, Resched, Without;
    InvApart(k);
    if IsPid(k, p) && k.procs[p].prstate == PR_CURR { CurrentOnly(k, p); }
    if p == k.currpid && p != NULLPROC {
      ReschedSem(WithState(k, p, PR_SUSP), s);
    }
  }

  ghost function One(b: bool): nat {
    if b then 1 else 0
  }

  /** The law of one step that does not empty s: what happens to its count and to its queue. */
  ghost predicate SemLawStep(k: State, e: Event, k': State, s: int)
    requires Inv(k) && Inv(k') && SameTables(k, k') && !BadSem(k, s)
  {
    && Count(k', s) == Count(k, s) + One(Ups(k, e, s)) + One(Withdraws(k, e, s)) - One(Waits(k, e, s))
    && Line(k', s) ==
         (if Waits(k, e, s) && Count(k, s) <= 0 then Line(k, s) + [k.currpid]
          else if Ups(k, e, s) && Count(k, s) < 0 then Without(Line(k, s), Line(k, s)[0])
          else if Withdraws(k, e, s) then Without(Line(k, s), e.pid)
          else Line(k, s))
    && (Withdraws(k, e, s) ==> e.pid in Line(k, s))
    && (Ups(k, e, s) && Count(k, s) < 0 ==> k'.procs[Line(k, s)[0]].prstate in {PR_READY, PR_CURR})
  }

  lemma SameLaw(k: State, e: Event, k': State, s: int)
    requires Inv(k) && Inv(k') && SemSame(k, k', s)
    requires !Waits(k, e, s) && !Ups(k, e, s) && !Withdraws(k, e, s)
    ensures SemLawStep(k, e, k', s)
  {
  }

  lemma WaitLaw(k: State, e: Event, s: int)
    requires Inv(k) && Enabled(k, e) && !BadSem(k, s) && e.EvWait?
    ensures SemLawStep(k, e, Step(k, e), s)
  {
    hide Inv, Step, Enabled, Wait;
    InvApart(k);
    StepWait(k, e.sem);
    WaitSem(k, e.sem, s);
  }

  lemma UpLaw(k: State, e: Event, s: int)
    requires Inv(k) && Enabled(k, e) && !BadSem(k, s) && (e.EvSignal? || e.EvSignalN?)
    ensures SemLawStep(k, e, Step(k, e), s)
  {
    hide Inv, Step, Enabled, SemUp;
    InvApart(k);
    if e.EvSignal? { StepSignal(k, e.sem); } else { StepSignalN(k, e.sem); }
    if !BadSem(k, e.sem) {
      UpSem(k, e.sem, s);
      if Line(k, e.sem) != [] {
        WithoutHead(Line(k, e.sem));
      }
    }
  }

  lemma KillLaw(k: State, e: Event, s: int)
    requires Inv(k) && Enabled(k, e) && !BadSem(k, s) && e.EvKill?
    ensures SemLawStep(k, e, Step(k, e), s)
  {
    hide Inv, Step, Enabled, Kill;
    InvApart(k);
    StepKill(k, e.pid);
    KillSem(k, e.pid, s);
  }

  lemma EmptyLaw(k: State, e: Event, s: int)
    requires Inv(k) && Enabled(k, e) && !BadSem(k, s) && (e.EvSemReset? || e.EvSemDelete?) && !Empties(e, s)
    ensures SemLawStep(k, e, Step(k, e), s)
  {
    hide Inv, Step, Enabled, Emptied;
    InvApart(k);
    if e.EvSemDelete? { StepDelete(k, e.sem); } else { StepReset(k, e.sem, e.count); }
    if UsedSem(k, e.sem) {
      if e.EvSemDelete? {
        EmptiedSem(k, e.sem, (if Count(k, e.sem) < 0 then 0 else Count(k, e.sem)) + 1, s);
      } else if e.count >= 0 {
        EmptiedSem(k, e.sem, e.count, s);
      }
    }
  }

  lemma SemStep(k: State, e: Event, s: int)
    requires Inv(k) && Enabled(k, e) && !BadSem(k, s) && !Empties(e, s)
    ensures SemLawStep(k, e, Step(k, e), s)
  {
    hide Step, Enabled, SemLawStep, SemSame, Placed, ReadySorted, Tame, SemLaw, Mail, Separate;
    if MayBlock(k) { MayBlockCan(k); }
    if e.EvWait? {
      WaitLaw(k, e, s);
    } else if e.EvSignal? || e.EvSignalN? {
      UpLaw(k, e, s);
    } else if e.EvKill? {
      KillLaw(k, e, s);
    } else if e.EvSemReset? || e.EvSemDelete? {
      EmptyLaw(k, e, s);
    } else {
      if e.EvSemCreate? {
        CreateSem(k, e, s);
      } else if e.EvTick? {
        TickSemStep(k, s);
      } else if e.EvSend? {
        SendSemStep(k, e, s);
      } else if e.EvSuspend? || e.EvResume? || e.EvCreate? {
        ProcessSem(k, e, s);
      } else if e.EvYield? || e.EvDeferStart? || e.EvDeferStop? || e.EvTickTail? || e.EvSleep? {
        ClockSem(k, e, s);
      } else {
        MessageSem(k, e, s);
      }
      SameLaw(k, e, Step(k, e), s);
    }
  }

  lemma CreateSem(k: State, e: Event, s: int)
    requires Inv(k) && Enabled(k, e) && !BadSem(k, s) && e.EvSemCreate? && e.sem != s
    ensures SemSame(k, Step(k, e), s)
  {
    hide Inv, Step, Enabled;
    StepSemCreate(k, e.sem, e.count);
    InvShape(k);
  }

  lemma TickSemStep(k: State, s: int)
    requires Inv(k) && Enabled(k, EvTick) && !BadSem(k, s)
    ensures SemSame(k, Step(k, EvTick), s)
  {
    hide Inv, Step, Enabled, Tick;
    StepTick(k);
    TickSem(k, s);
  }

  lemma SendSemStep(k: State, e: Event, s: int)
    requires Inv(k) && Enabled(k, e) && !BadSem(k, s) && e.EvSend?
    ensures SemSame(k, Step(k, e), s)
  {
    hide Inv, Step, Enabled, Send;
    StepSend(k, e.pid, e.msg);
    SendSem(k, e.pid, e.msg, s);
  }

  // Runs

  ghost predicate NeverEmptied(es: seq<Event>, s: int) {
    forall i :: 0 <= i < |es| ==> !Empties(es[i], s)
  }

  /** The totals of a run: waits called on s, increments of s, waiters of s killed, and waits of s completed, whether
      at once or by being released. */
  datatype Totals = Totals(waits: nat, ups: nat, withdrawn: nat, completed: nat)

  ghost function Tally(k: State, e: Event, s: int): Totals
    requires !BadSem(k, s)
  {
    Totals(One(Waits(k, e, s)), One(Ups(k, e, s)), One(Withdraws(k, e, s)),
           One((Waits(k, e, s) && Count(k, s) > 0) || (Ups(k, e, s) && Count(k, s) < 0)))
  }

  ghost function Sum(a: Totals, b: Totals): Totals {
    Totals(a.waits + b.waits, a.ups + b.ups, a.withdrawn + b.withdrawn, a.completed + b.completed)
  }

  ghost function Total(k: State, es: seq<Event>, s: int): Totals
    requires Inv(k) && Runs(k, es) && !BadSem(k, s)
    decreases |es|
  {
    if es == [] then Totals(0, 0, 0, 0) else Sum(Tally(k, es[0], s), Total(Step(k, es[0]), es[1..], s))
  }

  lemma LineOnce(k: State, s: int)
    requires Inv(k) && !BadSem(k, s)
    ensures Shape(k) && NoDup(Line(k, s))
  {
    hide ReadySorted, Tame, SemLaw, Mail, Top;
    assert PlacedOn(k, -1, k.sems[s].squeue);
  }

  // The balance of one step.
  lemma Balance(k: State, e: Event, s: int)
    requires Inv(k) && Enabled(k, e) && !BadSem(k, s) && !Empties(e, s)
    ensures var k', t := Step(k, e), Tally(k, e, s);
            && !BadSem(k', s)
            && Count(k', s) == Count(k, s) + t.ups + t.withdrawn - t.waits
            && |Line(k', s)| == |Line(k, s)| + t.waits - t.withdrawn - t.completed
  {
    hide Inv, Step, Enabled, SemSame, Without;
    LineOnce(k, s);
    InvShape(Step(k, e));
    SemStep(k, e, s);
    if Ups(k, e, s) && Count(k, s) < 0 {
      SomeoneWaits(k, s);
      WithoutMembers(Line(k, s), Line(k, s)[0]);
    }
    if Withdraws(k, e, s) {
      WithoutMembers(Line(k, s), e.pid);
    }
  }

  lemma RestNotEmptied(es: seq<Event>, s: int)
    requires es != [] && NeverEmptied(es, s)
    ensures !Empties(es[0], s) && NeverEmptied(es[1..], s)
  {
  }

  lemma {:induction false} RunBalance(k: State, es: seq<Event>, s: int)
    requires Inv(k) && Runs(k, es) && !BadSem(k, s) && NeverEmptied(es, s)
    ensures var f, t := Exec(k, es), Total(k, es, s);
            && !BadSem(f, s)
            && Count(f, s) == Count(k, s) + t.ups + t.withdrawn - t.waits
            && |Line(f, s)| == |Line(k, s)| + t.waits - t.withdrawn - t.completed
    decreases |es|
  {
    hide Inv, Step, Enabled, Tally, NeverEmptied;
    InvShape(k);
    if es != [] {
      RestNotEmptied(es, s);
      Balance(k, es[0], s);
      RunBalance(Step(k, es[0]), es[1..], s);
    }
  }

  /** Conservation. From a state in which nobody waits on s, over every run without a reset or deletion of s: the waits
      completed are exactly as many as were called and not withdrawn, up to what the count and the increments allow. */
  lemma CompletedWaits(k: State, es: seq<Event>, s: int)
    requires Inv(k) && Runs(k, es) && !BadSem(k, s) && NeverEmptied(es, s) && Line(k, s) == []
    ensures var t := Total(k, es, s);
            var asked, allowed := t.waits - t.withdrawn, Count(k, s) + t.ups;
            t.completed == if asked <= allowed then asked else allowed
  {
    hide Step, Enabled, Tally, Runs, Total;
    RunBalance(k, es, s);
  }

  /** A semaphore starts with the count it is created with and nobody waiting. */
  lemma CreatedSem(k: State, s: int, count: int)
    requires Inv(k) && Enabled(k, EvSemCreate(s, count))
    ensures var k' := Step(k, EvSemCreate(s, count));
            UsedSem(k', s) && Count(k', s) == count >= 0 && Line(k', s) == []
  {
    hide Inv, Enabled, Step;
    StepSemCreate(k, s, count);
    InvShape(k);
    FreeEntryEmpty(k, s);
  }

  // Nobody waits on an entry that is not in use.
  lemma FreeEntryEmpty(k: State, s: int)
    requires Inv(k) && !BadSem(k, s) && k.sems[s].sstate == S_FREE
    ensures Shape(k) && Line(k, s) == []
  {
    hide Placed, ReadySorted, Tame, Mail, Top;
  }

  /** From its creation on, over every run that does not set the count anew: the waits completed are exactly those
      called and not withdrawn, up to the initial count plus the increments. */
  lemma CompletedSinceCreation(k: State, s: int, count: int, es: seq<Event>)
    requires Inv(k) && Enabled(k, EvSemCreate(s, count)) && Runs(Step(k, EvSemCreate(s, count)), es) && NeverEmptied(es, s)
    ensures !BadSem(Step(k, EvSemCreate(s, count)), s)
    ensures var t := Total(Step(k, EvSemCreate(s, count)), es, s);
            var asked, allowed := t.waits - t.withdrawn, count + t.ups;
            t.completed == if asked <= allowed then asked else allowed
  {
    hide Inv, Enabled, Step, Runs, Total;
    CreatedSem(k, s, count);
    CompletedWaits(Step(k, EvSemCreate(s, count)), es, s);
  }

  // FIFO

  /** Withdrawals of waiters that stand before p in the queue of s. */
  ghost predicate FreesAhead(k: State, e: Event, s: int, p: int)
    requires Shape(k) && !BadSem(k, s) && p in Line(k, s)
  {
    Withdraws(k, e, s) && e.pid in Line(k, s) && IndexOf(Line(k, s), e.pid) < IndexOf(Line(k, s), p)
  }

  /** e releases the first waiter of s. */
  ghost predicate Releases(k: State, e: Event, s: int)
    requires !BadSem(k, s)
  {
    Ups(k, e, s) && Count(k, s) < 0
  }

  lemma AppendIndex(l: seq<int>, x: int, p: int)
    requires p in l
    ensures IndexOf(l + [x], p) == IndexOf(l, p)
  {
    if l[0] != p {
      assert (l + [x])[1..] == l[1..] + [x];
    }
  }

  lemma WithoutIndex(l: seq<int>, x: int, p: int)
    requires NoDup(l) && p in l && x in l && x != p
    ensures p in Without(l, x)
    ensures IndexOf(Without(l, x), p) == IndexOf(l, p) - (if IndexOf(l, x) < IndexOf(l, p) then 1 else 0)
  {
    WithoutMembers(l, x);
    var m, i := Without(l, x), IndexOf(l, p);
    var j := if IndexOf(l, x) < i then i - 1 else i;
    assert m[j] == p && NoDup(m);
  }

  /** One step moves a waiter forward exactly when the first waiter is released or one ahead of it is killed; when it
      is itself the first and is released, it becomes ready. Later arrivals never pass it. */
  lemma WaiterStep(k: State, e: Event, s: int, p: int)
    requires Inv(k) && Enabled(k, e) && !BadSem(k, s) && !Empties(e, s) && p in Line(k, s) && e != EvKill(p)
    ensures var k', i := Step(k, e), IndexOf(Line(k, s), p);
            && !BadSem(k', s)
            && if Releases(k, e, s) && i == 0 then IsPid(k', p) && k'.procs[p].prstate in {PR_READY, PR_CURR}
               else p in Line(k', s)
                    && IndexOf(Line(k', s), p) == i - One(Releases(k, e, s)) - One(FreesAhead(k, e, s, p))
  {
    hide Inv, Step, Enabled, SemSame, Without;
    LineOnce(k, s);
    InvShape(Step(k, e));
    SemStep(k, e, s);
    var l := Line(k, s);
    if Waits(k, e, s) && Count(k, s) <= 0 {
      AppendIndex(l, k.currpid, p);
    } else if Releases(k, e, s) {
      assert IndexOf(l, l[0]) == 0;
      if l[0] != p {
        WithoutIndex(l, l[0], p);
      }
    } else if Withdraws(k, e, s) {
      WithoutIndex(l, e.pid, p);
    }
  }

  /** p stays in the queue of s throughout the run, and how many places it advances. */
  ghost function Advance(k: State, es: seq<Event>, s: int, p: int): nat
    requires Inv(k) && Runs(k, es) && !BadSem(k, s) && p in Line(k, s)
    decreases |es|
  {
    if es == [] then 0
    else
      var here := One(Releases(k, es[0], s)) + One(FreesAhead(k, es[0], s, p));
      var k1 := Step(k, es[0]);
      if !BadSem(k1, s) && p in Line(k1, s) then here + Advance(k1, es[1..], s, p) else here
  }

  /** First come, first served: over every run without a reset or deletion of s in which p is not killed, a waiter
      with i others before it is still waiting, i - a places from the front, as long as the a releases and
      withdrawals ahead of it are at most i; the next release then makes it ready. */
  lemma {:induction false} FirstComeFirstServed(k: State, es: seq<Event>, s: int, p: int)
    requires Inv(k) && Runs(k, es) && !BadSem(k, s) && NeverEmptied(es, s) && p in Line(k, s)
    requires forall i :: 0 <= i < |es| ==> es[i] != EvKill(p)
    requires Advance(k, es, s, p) <= IndexOf(Line(k, s), p)
    ensures var f, left := Exec(k, es), IndexOf(Line(k, s), p) - Advance(k, es, s, p);
            && !BadSem(f, s) && p in Line(f, s) && IndexOf(Line(f, s), p) == left
            && (left == 0 && Enabled(f, EvSignalN(s)) ==> Step(f, EvSignalN(s)).procs[p].prstate in {PR_READY, PR_CURR})
    decreases |es|
  {
    hide Inv, Step, Enabled, Releases, FreesAhead, IndexOf;
    InvShape(k);
    if es == [] {
      if Enabled(k, EvSignalN(s)) && IndexOf(Line(k, s), p) == 0 {
        NextInLine(k, s, p);
      }
    } else {
      WaiterStep(k, es[0], s, p);
      FirstComeFirstServed(Step(k, es[0]), es[1..], s, p);
    }
  }

  lemma NextInLine(k: State, s: int, p: int)
    requires Inv(k) && !BadSem(k, s) && p in Line(k, s) && IndexOf(Line(k, s), p) == 0 && Enabled(k, EvSignalN(s))
    ensures Step(k, EvSignalN(s)).procs[p].prstate in {PR_READY, PR_CURR}
  {
    hide Step;
    WaiterStep(k, EvSignalN(s), s, p);
  }
}
