/** What the invariant means for every reachable state, and what deferral guarantees. */
module Safety {
  import opened Types
  import opened Lists
  import opened Queue
  import opened Delta
  import opened KernelState
  import opened KernelInv
  import opened KernelRuns

  /** Safety over whole runs: in every state reachable from a good one, exactly one process is current; a process is on
      the ready list iff it is ready, on the queue of a semaphore iff it waits for that semaphore, and on the sleep
      queue iff it sleeps; queue lengths match semaphore counts; the null process can always run; a blocked receiver
      has an empty mailbox; and outside deferral nobody ready has a higher priority than the current process. */
  lemma RunSafety(k: State, es: seq<Event>)
    requires Inv(k) && Runs(k, es)
    ensures var f := Exec(k, es);
      && (forall p :: 0 <= p < |f.procs| ==> (f.procs[p].prstate == PR_CURR <==> p == f.currpid))
      && (forall p :: 0 <= p < |f.procs| ==> (f.procs[p].prstate == PR_READY <==> p in f.lists[f.readylist]))
      && (forall p :: 0 <= p < |f.procs| ==> (f.procs[p].prstate in {PR_SLEEP, PR_RECTIM} <==> p in f.lists[f.sleepq]))
      && (forall p, s :: 0 <= p < |f.procs| && 0 <= s < |f.sems| ==>
            (f.procs[p].prstate == PR_WAIT && f.procs[p].prsem == s <==> p in f.lists[f.sems[s].squeue]))
      && (forall s :: 0 <= s < |f.sems| ==>
            |f.lists[f.sems[s].squeue]| == if f.sems[s].scount < 0 then -f.sems[s].scount else 0)
      && f.procs[NULLPROC].prstate in {PR_READY, PR_CURR}
      && (forall p :: 0 <= p < |f.procs| && f.procs[p].prstate in {PR_RECV, PR_RECTIM} ==> !f.procs[p].prhasmsg)
      && (f.ndefers == 0 ==> Top(f))
  {
    hide ReadySorted, Agenda, Apply;
    var f := Exec(k, es);
    hide Exec, Runs;
    assert PlacedOn(f, -1, f.readylist) && PlacedOn(f, -1, f.sleepq);
    forall p, s | 0 <= p < |f.procs| && 0 <= s < |f.sems|
      ensures f.procs[p].prstate == PR_WAIT && f.procs[p].prsem == s <==> p in f.lists[f.sems[s].squeue]
    {
      assert PlacedOn(f, -1, f.sems[s].squeue);
      WaitsOn(f, p, s);
    }
    forall p | 0 <= p < |f.procs| && f.procs[p].prstate in {PR_RECV, PR_RECTIM}
      ensures !f.procs[p].prhasmsg
    {
      assert MailOk(f.procs[p], f.conts[p]);
    }
  }

  lemma WaitsOn(k: State, p: int, s: int)
    requires Inv(k) && IsPid(k, p) && 0 <= s < |k.sems|
    ensures Home(k, p) == k.sems[s].squeue <==> k.procs[p].prstate == PR_WAIT && k.procs[p].prsem == s
  {
    var t := k.procs[p].prsem;
    if k.procs[p].prstate == PR_WAIT && t < s {
      assert k.sems[t].squeue != k.sems[s].squeue;
    } else if k.procs[p].prstate == PR_WAIT && s < t {
      assert k.sems[s].squeue != k.sems[t].squeue;
    }
  }

  // Deferral

  ghost predicate BecomesReady(k: State, k': State, p: int) {
    && 0 <= p < |k.procs| == |k'.procs|
    && k.procs[p].prstate != PR_READY && k'.procs[p].prstate == PR_READY
  }

  /** What calls for a choice of process: some process becomes ready, the current one gives the processor up, or its
      time slice ends. */
  ghost predicate Attempts(k: State, e: Event, k': State) {
    || e == EvYield || e == EvSleep(0) || (e == EvTickTail && k.preempt <= 1)
    || exists p :: BecomesReady(k, k', p)
  }

  /** A step under deferral: the current process stays, the attempt is noted exactly when there is one, and only the end
      of a clock interrupt touches the time slice. */
  ghost predicate Held(k: State, e: Event, k': State) {
    && k'.currpid == k.currpid && k'.ndefers == k.ndefers
    && (k'.attempt <==> k.attempt || Attempts(k, e, k'))
    && (e != EvTickTail ==> k'.preempt == k.preempt)
  }

  ghost predicate Calm(e: Event) {
    e != EvYield && e != EvSleep(0) && e != EvTickTail
  }

  lemma HeldStill(k: State, e: Event, k': State)
    requires k'.currpid == k.currpid && k'.ndefers == k.ndefers && k'.attempt == k.attempt && k'.preempt == k.preempt
    requires Calm(e) && |k'.procs| == |k.procs|
    requires forall p :: 0 <= p < |k.procs| && k'.procs[p].prstate == PR_READY ==> k.procs[p].prstate == PR_READY
    ensures Held(k, e, k')
  {
  }

  lemma HeldReady(k: State, e: Event, k': State, p: int)
    requires k'.currpid == k.currpid && k'.ndefers == k.ndefers && k'.attempt && k'.preempt == k.preempt
    requires Calm(e) && BecomesReady(k, k', p)
    ensures Held(k, e, k')
  {
  }

  lemma ReleaseHeld(k: State, e: Event, q: int, n: nat, k': State)
    requires Shape(k) && q in k.lists && q != k.readylist && n <= |k.lists[q]| && k.ndefers > 0 && Calm(e)
    requires n > 0 ==> k.procs[k.lists[q][0]].prstate != PR_READY
    requires var r := ReleaseAll(k, q, n);
             && k'.procs == r.procs && k'.attempt == r.attempt
             && k'.currpid == r.currpid && k'.preempt == r.preempt && k'.ndefers == k.ndefers
    ensures Held(k, e, k')
  {
    var k1, l := DeferStart(k), k.lists[q][..n];
    ReleaseEffect(k1, q, n);
    if n > 0 {
      var p := k.lists[q][0];
      assert p == l[0] && Released(k1, ReleaseAll(k, q, n), l, p);
      HeldReady(k, e, k', p);
    } else {
      forall p | 0 <= p < |k.procs| ensures k'.procs[p] == k.procs[p] {
        assert Released(k1, ReleaseAll(k, q, n), l, p);
      }
      HeldStill(k, e, k');
    }
  }

  lemma WaiterWaits(k: State, s: int)
    requires Inv(k) && !BadSem(k, s) && k.lists[k.sems[s].squeue] != []
    ensures k.procs[k.lists[k.sems[s].squeue][0]].prstate == PR_WAIT
  {
    hide ReadySorted, Tame, SemLaw, Mail, Top;
    assert PlacedOn(k, -1, k.sems[s].squeue) && k.lists[k.sems[s].squeue][0] in k.lists[k.sems[s].squeue];
  }

  lemma EmptiedHeld(k: State, e: Event, s: int, count: int)
    requires Inv(k) && !BadSem(k, s) && SemQueueApart(k, s) && k.ndefers > 0 && Calm(e)
    ensures Held(k, e, Emptied(k, s, count))
  {
    hide Inv, Release, Resched;
    InvShape(k);
    var q := k.sems[s].squeue;
    if k.lists[q] != [] { WaiterWaits(k, s); }
    ReleaseHeld(k, e, q, |k.lists[q]|, Emptied(k, s, count));
  }

  lemma SemUpHeld(k: State, e: Event, s: int)
    requires Inv(k) && !BadSem(k, s) && k.ndefers > 0 && Calm(e)
    ensures k.sems[s].scount < 0 ==> k.lists[k.sems[s].squeue] != []
    ensures Held(k, e, SemUp(k, s))
  {
    if k.sems[s].scount < 0 {
      SomeoneWaits(k, s);
      WaiterWaits(k, s);
      SemApart(k, s);
      hide Inv;
      PopReadyEffect(WithCount(k, s, k.sems[s].scount + 1), k.sems[s].squeue);
      HeldReady(k, e, SemUp(k, s), k.lists[k.sems[s].squeue][0]);
    } else {
      HeldStill(k, e, SemUp(k, s));
    }
  }

  lemma SemApart(k: State, s: int)
    requires Inv(k) && !BadSem(k, s)
    ensures Shape(k) && k.sems[s].squeue != k.readylist
  {
    hide Placed, ReadySorted, Tame, SemLaw, Mail, Top;
  }

  lemma SemHeld(k: State, e: Event)
    requires Inv(k) && Enabled(k, e) && k.ndefers > 0
    requires e.EvWait? || e.EvSignal? || e.EvSignalN? || e.EvSemReset? || e.EvSemDelete? || e.EvSemCreate?
    ensures Held(k, e, Step(k, e))
  {
    hide Inv, Step, Enabled, Emptied, SemUp, Held;
    InvShape(k);
    match e
    case EvWait(s) => StepWait(k, s); HeldStill(k, e, Wait(k, s));
    case EvSignal(s) =>
      StepSignal(k, s);
      if !BadSem(k, s) { SemUpHeld(k, e, s); }
      StillHeld(k, e);
    case EvSignalN(s) => StepSignalN(k, s); SemUpHeld(k, e, s);
    case EvSemCreate(s, c) => StepSemCreate(k, s, c); HeldStill(k, e, SemCreate(k, s, c));
    case EvSemReset(s, c) =>
      StepReset(k, s, c);
      if !BadSem(k, s) { EmptiedHeld(k, e, s, c); }
      StillHeld(k, e);
    case EvSemDelete(s) =>
      StepDelete(k, s);
      if !BadSem(k, s) { EmptiedHeld(k, e, s, (if k.sems[s].scount < 0 then 0 else k.sems[s].scount) + 1); }
      StillHeld(k, e);
  }

  // A call that is refused.
  lemma StillHeld(k: State, e: Event)
    requires Calm(e)
    ensures Held(k, e, k)
  {
  }

  lemma ReadyHeld(k: State, k1: State, e: Event, p: int)
    requires Shape(k1) && IsPid(k1, p) && k1.ndefers == k.ndefers > 0 && |k1.procs| == |k.procs|
    requires k1.currpid == k.currpid && k1.preempt == k.preempt && k.procs[p].prstate != PR_READY && Calm(e)
    ensures Held(k, e, Ready(k1, p))
  {
    HeldReady(k, e, Ready(k1, p), p);
  }

  lemma SendHeld(k: State, e: Event)
    requires Inv(k) && Enabled(k, e) && k.ndefers > 0 && e.EvSend?
    ensures Held(k, e, Step(k, e))
  {
    hide Inv, Step, Enabled, Held, Ready;
    var p, m := e.pid, e.msg;
    InvShape(k);
    StepSend(k, p, m);
    if BadPid(k, p) || k.procs[p].prhasmsg {
      StillHeld(k, e);
    } else if k.procs[p].prstate == PR_RECV {
      ReadyHeld(k, Delivered(k, p, m), e, p);
    } else if k.procs[p].prstate == PR_RECTIM {
      ReadyHeld(k, Unsleep(Delivered(k, p, m), p), e, p);
    } else {
      HeldStill(k, e, Delivered(k, p, m));
    }
  }

  lemma MessageHeld(k: State, e: Event)
    requires Inv(k) && Enabled(k, e) && k.ndefers > 0
    requires e.EvReceive? || e.EvReceiveTail? || e.EvRecvClr? || e.EvRecvTime? || e.EvRecvTimeTail?
    ensures Held(k, e, Step(k, e))
  {
    hide Inv, Step, Enabled, Held;
    InvShape(k);
    match e
    case EvReceive => StepReceive(k); HeldStill(k, e, Receive(k));
    case EvReceiveTail => StepReceiveTail(k); HeldStill(k, e, ReceiveTail(k));
    case EvRecvClr => StepRecvClr(k); HeldStill(k, e, TakeMessage(k));
    case EvRecvTime(m) => StepRecvTime(k, m); HeldStill(k, e, RecvTime(k, m));
    case EvRecvTimeTail => StepRecvTimeTail(k); HeldStill(k, e, ReceiveTail(k));
  }

  lemma ProcessHeld(k: State, e: Event)
    requires Inv(k) && Enabled(k, e) && k.ndefers > 0
    requires e.EvSuspend? || e.EvResume? || e.EvKill? || e.EvCreate?
    ensures Held(k, e, Step(k, e))
  {
    hide Inv, Step, Enabled, Held, Ready, Resched;
    InvShape(k);
    match e
    case EvSuspend(p) => StepSuspend(k, p); HeldStill(k, e, Suspend(k, p));
    case EvResume(p) =>
      StepResume(k, p);
      if BadPid(k, p) || k.procs[p].prstate != PR_SUSP { StillHeld(k, e); } else { ReadyHeld(k, k, e, p); }
    case EvKill(p) => StepKill(k, p); HeldStill(k, e, Kill(k, p));
    case EvCreate(p, prio) => StepCreate(k, p, prio); HeldStill(k, e, Create(k, p, prio));
  }

  lemma SleeperSleeps(k: State)
    requires Inv(k) && k.lists[k.sleepq] != []
    ensures k.procs[k.lists[k.sleepq][0]].prstate in {PR_SLEEP, PR_RECTIM}
  {
    hide ReadySorted, Tame, SemLaw, Mail, Top;
    assert PlacedOn(k, -1, k.sleepq) && k.lists[k.sleepq][0] in k.lists[k.sleepq];
  }

  lemma TickHeld(k: State)
    requires Inv(k) && Enabled(k, EvTick) && k.ndefers > 0
    ensures Held(k, EvTick, Step(k, EvTick))
  {
    hide Inv, Step, Enabled, Held, Release, Expired;
    InvShape(k);
    StepTick(k);
    var l := k.lists[k.sleepq];
    if l == [] {
      HeldStill(k, EvTick, Tick(k));
    } else {
      SleeperSleeps(k);
      var k2 := HeadDown(WithCont(k, k.currpid, InTick));
      if k2.keys[l[0]] <= 0 {
        ReleaseHeld(k2, EvTick, k.sleepq, Expired(l, k2.keys), Wakeup(k2));
        assert Held(k2, EvTick, Wakeup(k2)) ==> Held(k, EvTick, Wakeup(k2)) by { SameHeld(k, k2, EvTick, Wakeup(k2)); }
      } else {
        HeldStill(k, EvTick, k2);
      }
    }
  }

  lemma SameHeld(k: State, k1: State, e: Event, k': State)
    requires k1.currpid == k.currpid && k1.ndefers == k.ndefers && k1.attempt == k.attempt && k1.preempt == k.preempt
    requires k1.procs == k.procs
    ensures Held(k1, e, k') ==> Held(k, e, k')
  {
    assert forall p :: BecomesReady(k1, k', p) <==> BecomesReady(k, k', p);
  }

  lemma ClockHeld(k: State, e: Event)
    requires Inv(k) && Enabled(k, e) && k.ndefers > 0
    requires e.EvYield? || e.EvTickTail? || e.EvSleep?
    ensures Held(k, e, Step(k, e))
  {
    hide Inv, Step, Enabled;
    InvShape(k);
    match e
    case EvYield => StepYield(k);
    case EvTickTail => StepTickTail(k); SameProcs(k, TickTail(k));
    case EvSleep(d) => StepSleep(k, d);
  }

  lemma SameProcs(k: State, k': State)
    requires k'.procs == k.procs
    ensures !exists p :: BecomesReady(k, k', p)
  {
  }

  /** Under deferral every step keeps the current process, and notes an attempt exactly when there is one; a nested
      start or stop changes only the depth. The outermost stop is the only place of choice: without an attempt it
      changes nothing else, with one it reschedules, and then the highest priority runs. */
  lemma DeferralHolds(k: State, e: Event)
    requires Inv(k) && Enabled(k, e) && k.ndefers > 0
    ensures !e.EvDeferStart? && !e.EvDeferStop? ==> Held(k, e, Step(k, e))
    ensures e.EvDeferStart? ==> Held(k.(ndefers := k.ndefers + 1), e, Step(k, e))
    ensures e.EvDeferStop? && k.ndefers > 1 ==> Held(k.(ndefers := k.ndefers - 1), e, Step(k, e))
    ensures e.EvDeferStop? && k.ndefers == 1 && !k.attempt ==> Step(k, e) == k.(ndefers := 0)
    ensures e.EvDeferStop? && k.ndefers == 1 && k.attempt ==>
      CanResched(k.(ndefers := 0)) && Step(k, e) == Resched(k.(ndefers := 0)) && Top(Step(k, e))
  {
    hide Inv, Step, Enabled, Held, Top;
    if e.EvDeferStart? {
      StepDeferStart(k);
      HeldStill(k.(ndefers := k.ndefers + 1), e, DeferStart(k));
    } else if e.EvDeferStop? {
      StepDeferStop(k);
      InvShape(k);
      if k.ndefers > 1 { HeldStill(k.(ndefers := k.ndefers - 1), e, DeferStop(k)); }
      if k.ndefers == 1 { OutermostStop(k); }
    } else if e.EvTick? {
      TickHeld(k);
    } else if e.EvWait? || e.EvSignal? || e.EvSignalN? || e.EvSemReset? || e.EvSemDelete? || e.EvSemCreate? {
      SemHeld(k, e);
    } else if e.EvSuspend? || e.EvResume? || e.EvKill? || e.EvCreate? {
      ProcessHeld(k, e);
    } else if e.EvYield? || e.EvTickTail? || e.EvSleep? {
      ClockHeld(k, e);
    } else if e.EvSend? {
      SendHeld(k, e);
    } else {
      MessageHeld(k, e);
    }
  }

  lemma OutermostStop(k: State)
    requires Inv(k) && Enabled(k, EvDeferStop) && k.ndefers == 1
    ensures !k.attempt ==> Step(k, EvDeferStop) == k.(ndefers := 0)
    ensures k.attempt ==>
      && CanResched(k.(ndefers := 0)) && Step(k, EvDeferStop) == Resched(k.(ndefers := 0))
      && Top(Step(k, EvDeferStop))
  {
    StepDeferStop(k);
    DeferStopInv(k);
  }

  // Deferral over runs

  /** The run contains no outermost stop. */
  ghost predicate StaysDeferred(k: State, es: seq<Event>)
    requires Inv(k) && Runs(k, es)
    decreases |es|
  {
    k.ndefers > 0 && (es == [] || StaysDeferred(Step(k, es[0]), es[1..]))
  }

  ghost predicate Attempted(k: State, es: seq<Event>)
    requires Inv(k) && Runs(k, es)
    decreases |es|
  {
    es != [] && (Attempts(k, es[0], Step(k, es[0])) || Attempted(Step(k, es[0]), es[1..]))
  }

  lemma DeferredStep(k: State, e: Event)
    requires Inv(k) && Enabled(k, e) && k.ndefers > 0 && Step(k, e).ndefers > 0
    ensures var k' := Step(k, e);
            k'.currpid == k.currpid && (k'.attempt <==> k.attempt || Attempts(k, e, k'))
  {
    hide Inv, Step, Enabled;
    DeferralHolds(k, e);
    var k' := Step(k, e);
    if e.EvDeferStart? {
      SameAttempts(k, k.(ndefers := k.ndefers + 1), e, k');
    } else if e.EvDeferStop? {
      SameAttempts(k, k.(ndefers := k.ndefers - 1), e, k');
      if k.ndefers == 1 && k.attempt { ReschedOpen(k); }
    }
  }

  lemma ReschedOpen(k: State)
    requires Shape(k) && CanResched(k.(ndefers := 0))
    ensures Resched(k.(ndefers := 0)).ndefers == 0
  {
  }

  lemma SameAttempts(k: State, k1: State, e: Event, k': State)
    requires k1.procs == k.procs && k1.preempt == k.preempt
    ensures Attempts(k1, e, k') <==> Attempts(k, e, k')
  {
    assert forall p :: BecomesReady(k1, k', p) <==> BecomesReady(k, k', p);
  }

  /** Over every run without an outermost stop, clock interrupts and nested deferrals included, the current process
      stays current, and an attempt is on record if and only if one was before or some step made one. */
  lemma {:induction false} DeferredRun(k: State, es: seq<Event>)
    requires Inv(k) && Runs(k, es) && StaysDeferred(k, es)
    ensures var f := Exec(k, es);
            && f.currpid == k.currpid && f.ndefers > 0
            && (f.attempt <==> k.attempt || Attempted(k, es))
    decreases |es|
  {
    hide Inv, Step, Enabled, Attempts;
    if es != [] {
      DeferredStep(k, es[0]);
      DeferredRun(Step(k, es[0]), es[1..]);
    }
  }

  /** A deferral from its start to its outermost stop: nobody else runs in between; if any step in between called for a
      choice, the stop makes it, and otherwise it leaves everything but the depth alone. */
  lemma DeferralSection(k: State, es: seq<Event>)
    requires Inv(k) && k.ndefers == 0 && Enabled(k, EvDeferStart)
    requires Runs(Step(k, EvDeferStart), es) && StaysDeferred(Step(k, EvDeferStart), es)
    requires var m := Exec(Step(k, EvDeferStart), es); m.ndefers == 1 && Enabled(m, EvDeferStop)
    ensures var k1 := Step(k, EvDeferStart);
            var m := Exec(k1, es);
            var f := Step(m, EvDeferStop);
            && m.currpid == k.currpid && Shape(m) && Top(f)
            && (!Attempted(k1, es) ==> f == m.(ndefers := 0))
            && (Attempted(k1, es) ==> CanResched(m.(ndefers := 0)) && f == Resched(m.(ndefers := 0)))
  {
    hide Step, Enabled, Attempts, Placed, ReadySorted, Tame, SemLaw, Mail, Top;
    StepDeferStart(k);
    var k1 := Step(k, EvDeferStart);
    DeferredRun(k1, es);
    var m := Exec(k1, es);
    OutermostStop(m);
    hide Exec, Runs, Attempted, StaysDeferred;
    StepDeferStop(m);
  }
}
