/** Every step in two parts: what the call itself does to the tables, by the law of StepLaws, and then the dispatcher,
    if it is asked. */
module StepParts {
  import opened Types
  import opened Lists
  import opened Queue
  import opened Delta
  import opened KernelState
  import opened KernelInv
  import opened KernelRuns
  import opened Wakeups
  import opened ReadyOrder
  import opened StepLaws

  // The dispatcher

  /** The dispatcher changes who runs, and nothing else about any process. */
  ghost predicate Dispatched(k: State, k': State) {
    && |k'.procs| == |k.procs| && k'.sems == k.sems && k'.conts == k.conts && k'.ndefers == k.ndefers
    && k'.preempt == (if k'.currpid == k.currpid then k.preempt else QUANTUM)
    && forall p :: 0 <= p < |k.procs| ==>
         && k'.procs[p] == k.procs[p].(prstate := k'.procs[p].prstate)
         && Stand(k'.procs[p].prstate) == Stand(k.procs[p].prstate)
  }

  lemma HeadReady(k: State)
    requires Core(k, -1, -1) && k.lists[k.readylist] != []
    ensures var h := k.lists[k.readylist][0]; 0 <= h < |k.procs| && k.procs[h].prstate == PR_READY
  {
    hide ReadySorted, Tame, SemLaw, Mail;
    assert PlacedOn(k, -1, k.readylist) && k.lists[k.readylist][0] in k.lists[k.readylist];
  }

  lemma SwitchDispatched(k: State)
    requires Shape(k) && k.lists[k.readylist] != [] && k.procs[k.lists[k.readylist][0]].prstate == PR_READY
    requires k.lists[k.readylist][0] != k.currpid
    ensures Dispatched(k, Switch(k))
  {
    hide Pids;
  }

  lemma EnrollDispatched(k: State, k': State)
    requires Shape(k) && k.procs[k.currpid].prstate == PR_CURR
    requires k'.currpid != k.currpid && Dispatched(Enroll(k, k.currpid), k')
    ensures Dispatched(k, k')
  {
    hide Pids, PrioIndex, InsertAt;
  }

  lemma ReschedDispatched(k: State)
    requires Core(k, -1, -1) && k.procs[k.currpid].prstate != PR_READY && CanResched(k)
    ensures Dispatched(k, Resched(k))
  {
    hide Core, Enroll, Switch;
    CoreShape(k);
    if k.lists[k.readylist] != [] { HeadReady(k); }
    if k.ndefers > 0 {
    } else if k.procs[k.currpid].prstate != PR_CURR {
      SwitchDispatched(k);
    } else if k.procs[k.currpid].prprio <= FirstKey(k) {
      EnrolledHead(k);
      SwitchDispatched(Enroll(k, k.currpid));
      EnrollDispatched(k, Switch(Enroll(k, k.currpid)));
    }
  }

  lemma CoreShape(k: State)
    requires Core(k, -1, -1)
    ensures Shape(k) && k.ndefers >= 0
  {
    hide Placed, ReadySorted, Tame, SemLaw, Mail;
  }

  // The current process goes behind the one that is switched in.
  lemma EnrolledHead(k: State)
    requires Core(k, -1, -1) && k.procs[k.currpid].prstate == PR_CURR && k.procs[k.currpid].prprio <= FirstKey(k)
    ensures var c, k1 := k.currpid, Enroll(k, k.currpid);
            var l := k1.lists[k1.readylist];
            && l != [] && 0 <= l[0] < |k1.procs| && l[0] != c && k1.currpid == c
            && k1.procs[l[0]].prstate == PR_READY && Switch(k1).currpid == l[0]
  {
    hide Placed, Tame, SemLaw, Mail;
    if k.lists[k.readylist] != [] { HeadReady(k); }
  }

  lemma DispatchedLaw(k: State, e: Event, k1: State, k': State)
    requires Law(k, e, k1) && k1.currpid == k.currpid && Dispatched(k1, k') && Shape(k') && SameTables(k, k')
    requires k1.preempt == SliceAfter(k.preempt, e, false)
    ensures Law(k, e, k')
  {
    hide After, SemAfter, PrioAfter, ContAfter, CountAfter;
    forall p | 0 <= p < |k.procs|
      ensures ProcLaw(k, e, k', p)
    {
      assert ProcLaw(k, e, k1, p);
    }
    forall s | 0 <= s < |k.sems|
      ensures SentryLaw(k, e, k', s)
    {
      assert SentryLaw(k, e, k1, s);
    }
  }

  // The two parts

  /** k1 is the state in which the dispatcher is asked, or the end of the step when it is not. */
  ghost predicate Split(k: State, e: Event, k1: State, asked: bool)
    requires Inv(k) && Enabled(k, e)
  {
    && Core(k1, -1, -1) && Law(k, e, k1)
    && k1.currpid == k.currpid && k1.procs[k1.currpid].prstate != PR_READY
    && (asked ==> CanResched(k1)) && Step(k, e) == (if asked then Resched(k1) else k1)
    && InLine(k.lists[k.readylist], k1.lists[k.readylist], k.procs)
    && (k1.ndefers == 0 ==> (asked <==> Calls(k, e, k1) || k1.procs[k1.currpid].prstate != PR_CURR))
  }

  // Nobody's state changes.
  lemma NobodyReady(k: State, k': State)
    requires |k'.procs| == |k.procs|
    requires forall p :: 0 <= p < |k.procs| ==> k'.procs[p].prstate == k.procs[p].prstate
    ensures !exists p :: NewlyReady(k, k', p)
  {
  }

  lemma SplitYield(k: State)
    requires Inv(k) && Enabled(k, EvYield)
    ensures Split(k, EvYield, k, true)
  {
    hide Inv, Step, Enabled, Core, InLine, Resched;
    StepYield(k);
    InvCore(k);
    SelfInLine(k.lists[k.readylist], k.procs);
  }

  lemma SplitDeferStart(k: State)
    requires Inv(k) && Enabled(k, EvDeferStart)
    ensures Split(k, EvDeferStart, DeferStart(k), false)
  {
    hide Inv, Step, Enabled, Core, InLine, Resched;
    StepDeferStart(k);
    InvCore(Step(k, EvDeferStart));
    InvApart(k);
    SelfInLine(k.lists[k.readylist], k.procs);
  }

  lemma SplitDeferStop(k: State)
    requires Inv(k) && Enabled(k, EvDeferStop)
    ensures Split(k, EvDeferStop, k.(ndefers := if k.ndefers > 0 then k.ndefers - 1 else k.ndefers),
                  k.ndefers == 1 && k.attempt)
  {
    hide Inv, Step, Enabled, Core, InLine, Resched;
    StepDeferStop(k);
    InvApart(k);
    InvCore(k);
    var k1 := k.(ndefers := if k.ndefers > 0 then k.ndefers - 1 else k.ndefers);
    SlicePositive(k);
    CoreSame(k, k1, -1, -1);
    SelfInLine(k.lists[k.readylist], k.procs);
    NobodyReady(k, k1);
  }

  lemma SlicePositive(k: State)
    requires Inv(k)
    ensures 1 <= k.preempt <= QUANTUM && k.ndefers >= 0
  {
    hide Placed, ReadySorted, Tame, SemLaw, Mail, Top;
  }

  lemma SplitSemCreate(k: State, s: int, c: int)
    requires Inv(k) && Enabled(k, EvSemCreate(s, c))
    ensures Split(k, EvSemCreate(s, c), SemCreate(k, s, c), false)
  {
    hide Inv, Step, Enabled, Core, InLine, Resched;
    StepSemCreate(k, s, c);
    InvCore(k);
    InvCore(Step(k, EvSemCreate(s, c)));
    SelfInLine(k.lists[k.readylist], k.procs);
    NobodyReady(k, SemCreate(k, s, c));
  }

  // The current process is not on the ready list.
  lemma CurrentApart(k: State)
    requires Inv(k)
    ensures Core(k, -1, -1) && k.procs[k.currpid].prstate == PR_CURR && k.currpid !in k.lists[k.readylist]
  {
    InvCore(k);
    CurrentNotQueued(k, k.readylist);
  }

  lemma SplitRefused(k: State, e: Event)
    requires Inv(k) && Enabled(k, e) && Step(k, e) == k && Law(k, e, k) && !Calls(k, e, k)
    ensures Split(k, e, k, false)
  {
    hide Inv, Step, Enabled, Core, InLine, Resched, Law, Calls;
    InvCore(k);
    SelfInLine(k.lists[k.readylist], k.procs);
  }

  lemma SplitWait(k: State, s: int) returns (k1: State, asked: bool)
    requires Inv(k) && Enabled(k, EvWait(s))
    ensures Split(k, EvWait(s), k1, asked)
  {
    hide Inv, Step, Enabled, Split, Resched;
    StepWait(k, s);
    InvShape(k);
    if !UsedSem(k, s) {
      NobodyReady(k, k);
      SlicePositive(k);
      SplitRefused(k, EvWait(s));
      return k, false;
    }
    if k.sems[s].scount > 0 {
      SplitPass(k, s);
      return WithCount(k, s, k.sems[s].scount - 1), false;
    }
    SplitBlocked(k, s);
    return Blocked(k, s), true;
  }

  lemma SplitPass(k: State, s: int)
    requires Inv(k) && Enabled(k, EvWait(s)) && UsedSem(k, s) && k.sems[s].scount > 0
    ensures Split(k, EvWait(s), WithCount(k, s, k.sems[s].scount - 1), false)
  {
    hide Inv, Step, Enabled, Core, InLine, Resched;
    StepWait(k, s);
    InvCore(k);
    InvCore(Step(k, EvWait(s)));
    SelfInLine(k.lists[k.readylist], k.procs);
    NobodyReady(k, WithCount(k, s, k.sems[s].scount - 1));
  }

  lemma SplitBlocked(k: State, s: int)
    requires Inv(k) && Enabled(k, EvWait(s)) && UsedSem(k, s) && k.sems[s].scount <= 0
    ensures Split(k, EvWait(s), Blocked(k, s), true)
  {
    hide Inv, Step, Enabled, Core, InLine, Resched;
    StepWait(k, s);
    InvApart(k);
    CurrentApart(k);
    CurrentInTransit(k);
    BlockOnCore(k, s);
    SelfInLine(k.lists[k.readylist], k.procs);
  }

  // A semaphore that is counted up without waking anybody.
  lemma SplitCount(k: State, e: Event, s: int)
    requires Inv(k) && Enabled(k, e) && (e == EvSignal(s) || e == EvSignalN(s))
    requires !BadSem(k, s) && k.sems[s].scount >= 0 && (e.EvSignal? ==> k.sems[s].sstate == S_USED)
    ensures Split(k, e, WithCount(k, s, k.sems[s].scount + 1), false)
  {
    hide Inv, Step, Enabled, Core, InLine, Resched;
    if e.EvSignal? { StepSignal(k, s); } else { StepSignalN(k, s); }
    InvCore(k);
    InvCore(Step(k, e));
    NobodyWaits(k, s);
    SelfInLine(k.lists[k.readylist], k.procs);
    NobodyReady(k, WithCount(k, s, k.sems[s].scount + 1));
  }

  lemma NobodyWaits(k: State, s: int)
    requires Inv(k) && !BadSem(k, s) && k.sems[s].scount >= 0
    ensures k.lists[k.sems[s].squeue] == []
  {
    hide Placed, ReadySorted, Tame, Mail, Top;
  }

  // The first waiter of a semaphore, about to be made ready.
  lemma WaiterApart(k: State, s: int)
    requires Inv(k) && !BadSem(k, s) && k.sems[s].scount < 0
    ensures k.lists[k.sems[s].squeue] != []
    ensures var p := k.lists[k.sems[s].squeue][0];
            && IsPid(k, p) && k.procs[p].prstate == PR_WAIT && k.conts[p] == Running && p != k.currpid
            && p !in k.lists[k.readylist] && Core(Unwait(k, s), p, -1)
  {
    UnwaitInTransit(k, s);
    WaitingNoReceive(k, s);
    hide ReadySorted, Tame, SemLaw, Mail, Top;
    assert PlacedOn(k, -1, k.readylist);
  }

  lemma SplitUp(k: State, e: Event, s: int)
    requires Inv(k) && Enabled(k, e) && (e == EvSignal(s) || e == EvSignalN(s))
    requires !BadSem(k, s) && k.sems[s].scount < 0 && (e.EvSignal? ==> k.sems[s].sstate == S_USED)
    ensures k.lists[k.sems[s].squeue] != []
    ensures var p := k.lists[k.sems[s].squeue][0];
            IsPid(Unwait(k, s), p) && Split(k, e, Enroll(Unwait(k, s), p), true)
  {
    hide Inv, Step, Enabled, Core, InLine, Resched, Enroll, Law, Calls;
    if e.EvSignal? { StepSignal(k, s); } else { StepSignalN(k, s); }
    InvApart(k);
    InvCore(k);
    WaiterApart(k, s);
    var p := k.lists[k.sems[s].squeue][0];
    EnrollCore(Unwait(k, s), p, -1);
    SelfInLine(k.lists[k.readylist], k.procs);
    EnrollInLine(k.lists[k.readylist], Unwait(k, s), p, -1, k.procs);
    EnrollFields(Unwait(k, s), p);
    Called(k, e, Enroll(Unwait(k, s), p), p);
    UpLaw(k, e, s, Enroll(Unwait(k, s), p));
  }

  lemma EnrollFields(k: State, p: int)
    requires Shape(k) && IsPid(k, p)
    ensures Marked(k, Enroll(k, p), p, PR_READY) && CanResched(Enroll(k, p))
  {
    hide Pids;
  }

  // Only the state of p is changed, and perhaps lists and keys.
  ghost predicate Marked(k: State, k': State, p: int, s: PrState) {
    && Shape(k) && Shape(k') && SameTables(k, k') && IsPid(k, p)
    && k'.procs == k.procs[p := k.procs[p].(prstate := s)] && k'.sems == k.sems && k'.conts == k.conts
    && k'.currpid == k.currpid && k'.preempt == k.preempt && k'.ndefers == k.ndefers
  }

  lemma UpLaw(k: State, e: Event, s: int, k1: State)
    requires Shape(k) && !BadSem(k, s) && (e == EvSignal(s) || e == EvSignalN(s))
    requires k.sems[s].scount < 0 && (e.EvSignal? ==> k.sems[s].sstate == S_USED)
    requires k.lists[k.sems[s].squeue] != [] && Marked(Unwait(k, s), k1, k.lists[k.sems[s].squeue][0], PR_READY)
    ensures Law(k, e, k1)
  {
    hide Pids;
  }

  lemma SplitSignal(k: State, e: Event) returns (k1: State, asked: bool)
    requires Inv(k) && Enabled(k, e) && (e.EvSignal? || e.EvSignalN?)
    ensures Split(k, e, k1, asked)
  {
    hide Inv, Step, Enabled, Core, InLine, Resched, Split;
    var s := e.sem;
    InvShape(k);
    if e.EvSignal? { StepSignal(k, s); } else { StepSignalN(k, s); }
    if e.EvSignal? && !UsedSem(k, s) {
      NobodyReady(k, k);
      SlicePositive(k);
      SplitRefused(k, e);
      return k, false;
    }
    if k.sems[s].scount >= 0 {
      SplitCount(k, e, s);
      return WithCount(k, s, k.sems[s].scount + 1), false;
    }
    SplitUp(k, e, s);
    return Enroll(Unwait(k, s), k.lists[k.sems[s].squeue][0]), true;
  }

  // The clock, but for the interrupt itself

  lemma SplitSleep(k: State, d: int) returns (k1: State, asked: bool)
    requires Inv(k) && Enabled(k, EvSleep(d))
    ensures Split(k, EvSleep(d), k1, asked)
  {
    hide Inv, Step, Enabled, Core, InLine, Resched, DeltaKeys, DeltaIndex, InsertAt;
    StepSleep(k, d);
    InvApart(k);
    InvCore(k);
    SelfInLine(k.lists[k.readylist], k.procs);
    if d == 0 {
      return k, true;
    }
    CurrentInTransit(k);
    GoToSleepCore(k, d, PR_SLEEP, Running);
    assert WithCont(GoToSleep(k, d, PR_SLEEP), k.currpid, Running) == GoToSleep(k, d, PR_SLEEP);
    return GoToSleep(k, d, PR_SLEEP), true;
  }

  lemma SplitTickTail(k: State) returns (k1: State, asked: bool)
    requires Inv(k) && Enabled(k, EvTickTail)
    ensures Split(k, EvTickTail, k1, asked)
  {
    hide Inv, Step, Enabled, Core, InLine, Resched;
    StepTickTail(k);
    InvApart(k);
    InvCore(k);
    SlicePositive(k);
    asked := k.preempt <= 1;
    var rest := if asked then QUANTUM else k.preempt - 1;
    k1 := WithCont(k, k.currpid, Running).(preempt := rest);
    ContInv(k, Running);
    SliceInv(WithCont(k, k.currpid, Running), rest);
    InvCore(k1);
    SelfInLine(k.lists[k.readylist], k.procs);
    NobodyReady(k, k1);
  }

  // Messages

  lemma MailboxOf(k: State, p: int)
    requires Inv(k) && IsPid(k, p)
    ensures k.procs[p].prstate in {PR_RECV, PR_RECTIM} ==> !k.procs[p].prhasmsg && p != k.currpid
  {
    hide Placed, ReadySorted, Tame, SemLaw, Top;
    assert MailOk(k.procs[p], k.conts[p]);
  }

  lemma SplitReceive(k: State) returns (k1: State, asked: bool)
    requires Inv(k) && Enabled(k, EvReceive)
    ensures Split(k, EvReceive, k1, asked)
  {
    hide Inv, Step, Enabled, Core, InLine, Resched;
    StepReceive(k);
    InvApart(k);
    InvCore(k);
    SelfInLine(k.lists[k.readylist], k.procs);
    if HasMessage(k) {
      InvCore(Step(k, EvReceive));
      NobodyReady(k, TakeMessage(k));
      return TakeMessage(k), false;
    }
    var p := k.currpid;
    CurrentInTransit(k);
    LandCore(k, p, k.procs[p].(prstate := PR_RECV), InReceive);
    return WithCont(WithState(k, p, PR_RECV), p, InReceive), true;
  }

  lemma SplitRecvTime(k: State, m: int) returns (k1: State, asked: bool)
    requires Inv(k) && Enabled(k, EvRecvTime(m))
    ensures Split(k, EvRecvTime(m), k1, asked)
  {
    hide Inv, Step, Enabled, Core, InLine, Resched;
    StepRecvTime(k, m);
    InvApart(k);
    InvCore(k);
    SelfInLine(k.lists[k.readylist], k.procs);
    if m < 0 {
      NobodyReady(k, k);
      return k, false;
    }
    if HasMessage(k) {
      InvCore(Step(k, EvRecvTime(m)));
      NobodyReady(k, TakeMessage(k));
      return TakeMessage(k), false;
    }
    SplitTimed(k, m);
    return WithCont(GoToSleep(k, m, PR_RECTIM), k.currpid, InRecvTime), true;
  }

  lemma SplitTimed(k: State, m: int)
    requires Inv(k) && Enabled(k, EvRecvTime(m)) && m >= 0 && !HasMessage(k)
    ensures Split(k, EvRecvTime(m), WithCont(GoToSleep(k, m, PR_RECTIM), k.currpid, InRecvTime), true)
  {
    hide Inv, Step, Enabled, Core, InLine, Resched, DeltaKeys, DeltaIndex, InsertAt;
    StepRecvTime(k, m);
    InvApart(k);
    InvCore(k);
    SelfInLine(k.lists[k.readylist], k.procs);
    CurrentInTransit(k);
    GoToSleepCore(k, m, PR_RECTIM, InRecvTime);
  }

  lemma SplitTails(k: State, e: Event)
    requires Inv(k) && Enabled(k, e) && (e.EvReceiveTail? || e.EvRecvTimeTail? || e.EvRecvClr?)
    ensures Split(k, e, Step(k, e), false)
  {
    hide Inv, Step, Enabled, Core, InLine, Resched;
    InvCore(k);
    InvCore(Step(k, e));
    match e
    case EvReceiveTail => StepReceiveTail(k); TakenSplit(k, e, ReceiveTail(k));
    case EvRecvTimeTail => StepRecvTimeTail(k); TakenSplit(k, e, ReceiveTail(k));
    case EvRecvClr => StepRecvClr(k); TakenSplit(k, e, TakeMessage(k));
  }

  lemma TakenSplit(k: State, e: Event, k1: State)
    requires Shape(k) && (e.EvReceiveTail? || e.EvRecvTimeTail? || e.EvRecvClr?)
    requires k1 == if e.EvRecvClr? then TakeMessage(k) else ReceiveTail(k)
    ensures Law(k, e, k1) && !Calls(k, e, k1) && k1.currpid == k.currpid
    ensures k1.lists == k.lists && k1.procs[k.currpid].prstate == k.procs[k.currpid].prstate
    ensures InLine(k.lists[k.readylist], k1.lists[k.readylist], k.procs)
  {
    NobodyReady(k, k1);
  }

  lemma SplitSend(k: State, p: int, m: int) returns (k1: State, asked: bool)
    requires Inv(k) && Enabled(k, EvSend(p, m))
    ensures Split(k, EvSend(p, m), k1, asked)
  {
    hide Inv, Step, Enabled, Core, Resched, Split, Law, Enroll;
    var e := EvSend(p, m);
    InvShape(k);
    StepSend(k, p, m);
    if IsPid(k, p) { MailboxOf(k, p); }
    if BadPid(k, p) || k.procs[p].prhasmsg {
      SendRefused(k, e);
      return k, false;
    }
    if k.procs[p].prstate == PR_RECV {
      SplitSendWaiting(k, p, m);
      return Enroll(Delivered(k, p, m), p), true;
    }
    if k.procs[p].prstate == PR_RECTIM {
      SplitSendTimed(k, p, m);
      return Enroll(Unsleep(Delivered(k, p, m), p), p), true;
    }
    SplitSendPlain(k, p, m);
    return Delivered(k, p, m), false;
  }

  lemma SendRefused(k: State, e: Event)
    requires Inv(k) && Enabled(k, e) && e.EvSend? && Step(k, e) == k
    requires BadPid(k, e.pid) || k.procs[e.pid].prstate !in {PR_RECV, PR_RECTIM}
    ensures Split(k, e, k, false)
  {
    hide Inv, Step, Enabled, Core, InLine, Resched;
    InvShape(k);
    SlicePositive(k);
    NobodyReady(k, k);
    SplitRefused(k, e);
  }

  lemma SplitSendPlain(k: State, p: int, m: int)
    requires Inv(k) && Enabled(k, EvSend(p, m)) && IsPid(k, p) && k.procs[p].prstate !in {PR_RECV, PR_RECTIM}
    requires Step(k, EvSend(p, m)) == Delivered(k, p, m)
    ensures Split(k, EvSend(p, m), Delivered(k, p, m), false)
  {
    hide Inv, Step, Enabled, Core, InLine, Resched;
    InvCore(k);
    InvCore(Step(k, EvSend(p, m)));
    SelfInLine(k.lists[k.readylist], k.procs);
    NobodyReady(k, Delivered(k, p, m));
  }

  // A process that is not ready is not on the ready list.
  lemma NotOnReady(k: State, p: int)
    requires Inv(k) && IsPid(k, p) && k.procs[p].prstate != PR_READY
    ensures p !in k.lists[k.readylist]
  {
    hide ReadySorted, Tame, SemLaw, Mail, Top;
    assert PlacedOn(k, -1, k.readylist);
  }

  lemma SplitSendWaiting(k: State, p: int, m: int)
    requires Inv(k) && Enabled(k, EvSend(p, m)) && IsPid(k, p) && k.procs[p].prstate == PR_RECV
    requires Step(k, EvSend(p, m)) == Ready(Delivered(k, p, m), p)
    ensures Split(k, EvSend(p, m), Enroll(Delivered(k, p, m), p), true)
  {
    hide Inv, Step, Enabled, Core, InLine, Resched, Enroll;
    InvCore(k);
    ReceiverCore(k, p, m);
    EnrollCore(Delivered(k, p, m), p, -1);
    SelfInLine(k.lists[k.readylist], k.procs);
    NotOnReady(k, p);
    EnrollInLine(k.lists[k.readylist], Delivered(k, p, m), p, -1, k.procs);
    EnrollFields(Delivered(k, p, m), p);
    assert NewlyReady(k, Enroll(Delivered(k, p, m), p), p);
  }

  lemma SplitSendTimed(k: State, p: int, m: int)
    requires Inv(k) && Enabled(k, EvSend(p, m)) && IsPid(k, p) && k.procs[p].prstate == PR_RECTIM
    requires Step(k, EvSend(p, m)) == Ready(Unsleep(Delivered(k, p, m), p), p)
    ensures Split(k, EvSend(p, m), Enroll(Unsleep(Delivered(k, p, m), p), p), true)
  {
    hide Inv, Step, Enabled, Core, InLine, Resched, Enroll, GiveBack, Without, Calls;
    InvApart(k);
    InvCore(k);
    MailboxOf(k, p);
    var k2 := Unsleep(Delivered(k, p, m), p);
    UnsleepCore(k, p, -1);
    DeliverCore(Unsleep(k, p), p, m);
    assert k2 == Delivered(Unsleep(k, p), p, m);
    EnrollCore(k2, p, -1);
    SelfInLine(k.lists[k.readylist], k.procs);
    NotOnReady(k, p);
    EnrollInLine(k.lists[k.readylist], k2, p, -1, k.procs);
    EnrollFields(k2, p);
    Called(k, EvSend(p, m), Enroll(k2, p), p);
  }

  // Processes

  lemma SplitResume(k: State, p: int) returns (k1: State, asked: bool)
    requires Inv(k) && Enabled(k, EvResume(p))
    ensures Split(k, EvResume(p), k1, asked)
  {
    hide Inv, Step, Enabled, Core, InLine, Resched, Enroll, Calls;
    StepResume(k, p);
    InvCore(k);
    if BadPid(k, p) || k.procs[p].prstate != PR_SUSP {
      SlicePositive(k);
      NoCalls(k, EvResume(p), k);
      SplitRefused(k, EvResume(p));
      return k, false;
    }
    OnNoQueue(k, p);
    SuspendedMail(k, p);
    EnrollCore(k, p, -1);
    SelfInLine(k.lists[k.readylist], k.procs);
    NotOnReady(k, p);
    EnrollInLine(k.lists[k.readylist], k, p, -1, k.procs);
    EnrollFields(k, p);
    Called(k, EvResume(p), Enroll(k, p), p);
    return Enroll(k, p), true;
  }

  lemma NoCalls(k: State, e: Event, k': State)
    requires e.EvResume? || e.EvSuspend? || e.EvKill? || e.EvCreate? || e.EvTick? || e.EvSemReset? || e.EvSemDelete?
    requires |k'.procs| == |k.procs|
    requires forall p :: 0 <= p < |k.procs| ==>
      Stand(k'.procs[p].prstate) == PR_READY ==> Stand(k.procs[p].prstate) == PR_READY
    ensures !Calls(k, e, k')
  {
  }

  lemma Called(k: State, e: Event, k': State, p: int)
    requires NewlyReady(k, k', p)
    ensures Calls(k, e, k')
  {
  }

  lemma OnNoQueue(k: State, p: int)
    requires Inv(k) && IsPid(k, p) && k.procs[p].prstate in {PR_SUSP, PR_CURR, PR_RECV, PR_FREE}
    ensures Core(k, p, -1)
  {
    hide ReadySorted, Tame, SemLaw, Top;
    PlacedOff(k, k, p);
  }

  lemma SuspendedMail(k: State, p: int)
    requires Inv(k) && IsPid(k, p) && k.procs[p].prstate == PR_SUSP
    ensures k.conts[p] == InReceive ==> k.procs[p].prhasmsg
  {
    hide Placed, ReadySorted, Tame, SemLaw, Top;
    assert MailOk(k.procs[p], k.conts[p]);
  }

  lemma SplitCreate(k: State, p: int, prio: Prio)
    requires Inv(k) && Enabled(k, EvCreate(p, prio))
    ensures Split(k, EvCreate(p, prio), Create(k, p, prio), false)
  {
    hide Inv, Step, Enabled, Core, InLine, Resched, Calls;
    StepCreate(k, p, prio);
    InvCore(k);
    InvCore(Step(k, EvCreate(p, prio)));
    SelfInLine(k.lists[k.readylist], k.procs);
    NoCalls(k, EvCreate(p, prio), Create(k, p, prio));
  }

  lemma SplitSuspend(k: State, p: int) returns (k1: State, asked: bool)
    requires Inv(k) && Enabled(k, EvSuspend(p))
    ensures Split(k, EvSuspend(p), k1, asked)
  {
    hide Inv, Step, Enabled, Core, InLine, Resched, Calls, Without, Split;
    StepSuspend(k, p);
    InvCore(k);
    if BadPid(k, p) || p == NULLPROC || Stand(k.procs[p].prstate) != PR_READY {
      SlicePositive(k);
      NoCalls(k, EvSuspend(p), k);
      SplitRefused(k, EvSuspend(p));
      return k, false;
    }
    if k.procs[p].prstate == PR_CURR {
      SplitSuspendSelf(k, p);
      return WithState(k, p, PR_SUSP), true;
    }
    SplitSuspendReady(k, p);
    return WithState(Unlinked(k, k.readylist, p), p, PR_SUSP), false;
  }

  lemma SplitSuspendSelf(k: State, p: int)
    requires Inv(k) && Enabled(k, EvSuspend(p)) && p == k.currpid && p != NULLPROC
    ensures Split(k, EvSuspend(p), WithState(k, p, PR_SUSP), true)
  {
    hide Inv, Step, Enabled, Core, InLine, Resched, Calls;
    StepSuspend(k, p);
    InvApart(k);
    InvCore(k);
    SuspendedCore(k, p);
    SelfInLine(k.lists[k.readylist], k.procs);
  }

  lemma SplitSuspendReady(k: State, p: int)
    requires Inv(k) && Enabled(k, EvSuspend(p)) && IsPid(k, p) && p != NULLPROC && k.procs[p].prstate == PR_READY
    ensures Split(k, EvSuspend(p), WithState(Unlinked(k, k.readylist, p), p, PR_SUSP), false)
  {
    hide Inv, Step, Enabled, Core, InLine, Resched, Calls, Without;
    StepSuspend(k, p);
    InvApart(k);
    InvCore(k);
    InvCore(Step(k, EvSuspend(p)));
    LeftInLine(k, p);
    NoCalls(k, EvSuspend(p), WithState(Unlinked(k, k.readylist, p), p, PR_SUSP));
  }

  lemma LeftInLine(k: State, p: int)
    requires Inv(k)
    ensures InLine(k.lists[k.readylist], Without(k.lists[k.readylist], p), k.procs)
  {
    hide ReadySorted, Tame, SemLaw, Mail, Top, InLine;
    assert PlacedOn(k, -1, k.readylist);
    WithoutInLine(k.lists[k.readylist], p, k.procs);
  }

  lemma SplitKill(k: State, p: int) returns (k1: State, asked: bool)
    requires Inv(k) && Enabled(k, EvKill(p))
    ensures Split(k, EvKill(p), k1, asked)
  {
    hide Inv, Step, Enabled, Core, InLine, Resched, Calls, Without, Law, Kill;
    var e := EvKill(p);
    StepKill(k, p);
    InvShape(k);
    InvCore(k);
    if BadPid(k, p) || p == NULLPROC {
      KillRefused(k, p);
      RefusedKillLaw(k, p);
      NoCalls(k, e, k);
      SplitRefused(k, e);
      return k, false;
    }
    if k.procs[p].prstate == PR_CURR {
      SplitKillSelf(k, p);
      return Dead(k, p), true;
    }
    k1 := Kill(k, p);
    InvCore(Step(k, e));
    KillLaw(k, p);
    if k.procs[p].prstate == PR_READY { LeftInLine(k, p); } else { SelfInLine(k.lists[k.readylist], k.procs); }
    KillFields(k, p);
    NoCalls(k, e, k1);
    return k1, false;
  }

  lemma RefusedKillLaw(k: State, p: int)
    requires Inv(k) && (BadPid(k, p) || p == NULLPROC)
    ensures Law(k, EvKill(p), k)
  {
    hide Inv;
    InvShape(k);
    SlicePositive(k);
    if IsPid(k, p) && k.procs[p].prstate == PR_FREE { FreeCont(k, p); }
  }

  lemma FreeCont(k: State, p: int)
    requires Inv(k) && IsPid(k, p) && k.procs[p].prstate == PR_FREE
    ensures k.conts[p] == Running
  {
    hide Placed, ReadySorted, Tame, SemLaw, Top;
    assert MailOk(k.procs[p], k.conts[p]);
  }

  lemma SplitKillSelf(k: State, p: int)
    requires Inv(k) && Enabled(k, EvKill(p)) && p == k.currpid && p != NULLPROC
    ensures Split(k, EvKill(p), Dead(k, p), true)
  {
    hide Inv, Step, Enabled, Core, InLine, Resched, Calls;
    StepKill(k, p);
    InvApart(k);
    InvCore(k);
    CurrentInTransit(k);
    DeadCore(k, p);
    SelfInLine(k.lists[k.readylist], k.procs);
  }

  // What is left of a process that was killed while it was not running.
  lemma KillFields(k: State, p: int)
    requires Inv(k) && IsPid(k, p) && p != NULLPROC && k.procs[p].prstate != PR_CURR
    requires k.procs[p].prstate == PR_WAIT ==> !BadSem(k, k.procs[p].prsem)
    ensures var k' := Kill(k, p);
            && k'.procs == k.procs[p := k.procs[p].(prstate := PR_FREE)] && k'.currpid == k.currpid
            && (k.procs[p].prstate != PR_FREE ==> k'.conts == k.conts[p := Running])
            && k'.preempt == k.preempt && k'.ndefers == k.ndefers
            && k'.sems == (if k.procs[p].prstate != PR_WAIT then k.sems
                           else var s := k.procs[p].prsem; k.sems[s := k.sems[s].(scount := k.sems[s].scount + 1)])
            && k'.lists[k.readylist] ==
                 if k.procs[p].prstate == PR_READY then Without(k.lists[k.readylist], p) else k.lists[k.readylist]
  {
    hide Inv, Without, GiveBack;
    InvApart(k);
    if k.procs[p].prstate == PR_FREE { KillRefused(k, p); assert k.procs[p].(prstate := PR_FREE) == k.procs[p]; }
  }

  lemma KillLaw(k: State, p: int)
    requires Inv(k) && !BadPid(k, p) && p != NULLPROC && k.procs[p].prstate != PR_CURR
    requires k.procs[p].prstate == PR_WAIT ==> !BadSem(k, k.procs[p].prsem)
    ensures Law(k, EvKill(p), Kill(k, p))
  {
    hide Inv, Kill;
    InvShape(k);
    SlicePositive(k);
    KillFields(k, p);
  }

  // Releases under deferral

  lemma PopInLine(l: seq<int>, k: State, q: int, y: int, procs: seq<Proc>)
    requires Shape(k) && q in k.lists && q != k.readylist && k.lists[q] != [] && k.ndefers > 0
    requires Core(Popped(k, q), k.lists[q][0], y) && IsPid(k, k.lists[q][0])
    requires InLine(l, k.lists[k.readylist], procs) && k.lists[q][0] !in l
    requires |procs| == |k.procs| && forall r :: 0 <= r < |procs| ==> procs[r].prprio == k.procs[r].prprio
    ensures InLine(l, PopReady(k, q).lists[k.readylist], procs)
  {
    hide Core, InLine, Enroll;
    EnrollInLine(l, Popped(k, q), k.lists[q][0], y, procs);
    EnrollFields(Popped(k, q), k.lists[q][0]);
  }

  // Priorities do not change in a release.
  lemma ReleasePrios(k: State, q: int, n: nat)
    requires Shape(k) && q in k.lists && q != k.readylist && n <= |k.lists[q]| && k.ndefers > 0
    ensures |Release(k, q, n).procs| == |k.procs|
    ensures forall r :: 0 <= r < |k.procs| ==> Release(k, q, n).procs[r].prprio == k.procs[r].prprio
  {
    hide PopReady;
    ReleaseEffect(k, q, n);
    forall r | 0 <= r < |k.procs| ensures Release(k, q, n).procs[r].prprio == k.procs[r].prprio {
      assert Released(k, Release(k, q, n), k.lists[q][..n], r);
    }
  }

  lemma {:induction false} WaitersInLine(k: State, s: int, n: nat)
    requires Core(k, -1, s) && k.ndefers > 0 && !BadSem(k, s) && n <= |k.lists[k.sems[s].squeue]|
    requires forall p :: p in k.lists[k.sems[s].squeue] ==> p !in k.lists[k.readylist]
    ensures InLine(k.lists[k.readylist], Release(k, k.sems[s].squeue, n).lists[k.readylist], k.procs)
  {
    hide Placed, ReadySorted, Tame, SemLaw, Mail, OneCurrent, InLine, PopReady;
    var q, l := k.sems[s].squeue, k.lists[k.readylist];
    if n == 0 {
      SelfInLine(l, k.procs);
    } else {
      WaitersInLine(k, s, n - 1);
      var k1 := Release(k, q, n - 1);
      ReleaseWaiters(k, s, n - 1);
      assert k1.lists[q][0] == k.lists[q][n - 1];
      WaiterInTransit(k1, s);
      ReleasePrios(k, q, n - 1);
      PopInLine(l, k1, q, s, k.procs);
    }
  }

  lemma {:induction false} SleepersInLine(k: State, n: nat)
    requires Core(k, -1, -1) && k.ndefers > 0 && n <= Expired(k.lists[k.sleepq], k.keys)
    requires forall p :: p in k.lists[k.sleepq] ==> p !in k.lists[k.readylist]
    ensures InLine(k.lists[k.readylist], Release(k, k.sleepq, n).lists[k.readylist], k.procs)
  {
    hide Placed, ReadySorted, Tame, SemLaw, Mail, OneCurrent, InLine, PopReady;
    var q, l := k.sleepq, k.lists[k.readylist];
    if n == 0 {
      SelfInLine(l, k.procs);
    } else {
      SleepersInLine(k, n - 1);
      var k1 := Release(k, q, n - 1);
      ReleaseSleepers(k, n - 1);
      NextSleeper(k, n - 1);
      assert k1.lists[q][0] == k.lists[q][n - 1];
      SleeperInTransit(k1);
      ReleasePrios(k, q, n - 1);
      PopInLine(l, k1, q, -1, k.procs);
    }
  }

  lemma QueueIs(k: State, s: int, p: int)
    requires Inv(k) && !BadSem(k, s) && IsPid(k, p)
    ensures p in k.lists[k.sems[s].squeue] <==> WaitsOn(k, s, p)
    ensures p in k.lists[k.sems[s].squeue] ==> p !in k.lists[k.readylist]
  {
    hide ReadySorted, Tame, SemLaw, Mail, Top;
    assert PlacedOn(k, -1, k.sems[s].squeue) && PlacedOn(k, -1, k.readylist);
    var t := k.procs[p].prsem;
    assert k.procs[p].prstate == PR_WAIT && t < s ==> k.sems[t].squeue != k.sems[s].squeue;
    assert k.procs[p].prstate == PR_WAIT && s < t ==> k.sems[s].squeue != k.sems[t].squeue;
  }

  // What a release of all the waiters of s leaves, before the deferral ends.
  lemma EmptiedFields(k: State, s: int, c: int)
    requires Inv(k) && !BadSem(k, s) && c >= 0
    ensures SemQueueApart(k, s)
    ensures var q := k.sems[s].squeue;
            var kr := WithCount(ReleaseAll(k, q, |k.lists[q]|), s, c);
            && (forall p :: 0 <= p < |k.procs| ==>
                 kr.procs[p] == if WaitsOn(k, s, p) then k.procs[p].(prstate := PR_READY) else k.procs[p])
            && kr == k.(procs := kr.procs, lists := kr.lists, keys := kr.keys, attempt := kr.attempt,
                        ndefers := k.ndefers + 1, sems := k.sems[s := k.sems[s].(scount := c)])
            && (k.ndefers == 0 ==> (kr.attempt <==> k.lists[q] != []))
  {
    hide Inv, Release;
    InvApart(k);
    var q := k.sems[s].squeue;
    var n := |k.lists[q]|;
    ReleaseEffect(DeferStart(k), q, n);
    forall p | 0 <= p < |k.procs|
      ensures ReleaseAll(k, q, n).procs[p] == if WaitsOn(k, s, p) then k.procs[p].(prstate := PR_READY) else k.procs[p]
    {
      assert Released(DeferStart(k), ReleaseAll(k, q, n), k.lists[q][..n], p);
      QueueIs(k, s, p);
      assert k.lists[q][..n] == k.lists[q];
    }
  }

  lemma EmptiedInLine(k: State, s: int)
    requires Inv(k) && !BadSem(k, s)
    ensures k.ndefers >= 0 && k.sems[s].squeue != k.readylist
    ensures var q := k.sems[s].squeue;
            InLine(k.lists[k.readylist], ReleaseAll(k, q, |k.lists[q]|).lists[k.readylist], k.procs)
  {
    hide Inv, Release, InLine, Core;
    InvApart(k);
    InvCore(k);
    SlicePositive(k);
    CoreSame(k, DeferStart(k), -1, -1);
    CoreLoose(DeferStart(k), s);
    var q := k.sems[s].squeue;
    forall p | p in k.lists[q] ensures p !in k.lists[k.readylist] { PidIn(k, q, p); QueueIs(k, s, p); }
    WaitersInLine(DeferStart(k), s, |k.lists[q]|);
  }

  lemma PidIn(k: State, q: int, p: int)
    requires Shape(k) && q in k.lists && p in k.lists[q]
    ensures IsPid(k, p)
  {
    assert Pids(k.lists[q], |k.procs|);
    assert k.lists[q][IndexOf(k.lists[q], p)] == p;
  }

  lemma CoreLoose(k: State, s: int)
    requires Core(k, -1, -1)
    ensures Core(k, -1, s)
  {
    hide Placed, ReadySorted, Tame, Mail;
  }

  lemma SplitEmptied(k: State, e: Event, s: int, c: int) returns (k1: State, asked: bool)
    requires Inv(k) && Enabled(k, e) && UsedSem(k, s) && c >= 0
    requires e == EvSemReset(s, c) || (e == EvSemDelete(s) && c == CountAfter(k, e, s))
    ensures Split(k, e, k1, asked)
  {
    hide Inv, Step, Enabled, Core, InLine, Resched, Release, Law, Calls;
    InvApart(k);
    InvCore(k);
    var q := k.sems[s].squeue;
    var kr := WithCount(ReleaseAll(k, q, |k.lists[q]|), s, c);
    k1 := kr.(ndefers := k.ndefers);
    asked := k.ndefers == 0 && kr.attempt;
    EmptiedFields(k, s, c);
    EmptiedInLine(k, s);
    EmptiedCore(k, s, c);
    EmptiedStep(k, e, s, c);
    SlicePositive(k);
    CoreSame(kr, k1, -1, -1);
    EmptiedLaw(k, e, s, c, k1);
    EmptiedCalls(k, e, s, k1);
  }

  lemma EmptiedStep(k: State, e: Event, s: int, c: int)
    requires Inv(k) && Enabled(k, e) && UsedSem(k, s) && c >= 0
    requires e == EvSemReset(s, c) || (e == EvSemDelete(s) && c == CountAfter(k, e, s))
    ensures SemQueueApart(k, s) && Step(k, e) == Emptied(k, s, c)
  {
    hide Inv, Step, Enabled, Emptied;
    InvApart(k);
    if e.EvSemDelete? { StepDelete(k, s); } else { StepReset(k, s, c); }
  }

  lemma EmptiedLaw(k: State, e: Event, s: int, c: int, k1: State)
    requires Shape(k) && Shape(k1) && SameTables(k, k1) && UsedSem(k, s)
    requires (e == EvSemReset(s, c) && c >= 0) || (e == EvSemDelete(s) && c == CountAfter(k, e, s))
    requires forall p :: 0 <= p < |k.procs| ==>
      k1.procs[p] == if WaitsOn(k, s, p) then k.procs[p].(prstate := PR_READY) else k.procs[p]
    requires k1 == k.(procs := k1.procs, lists := k1.lists, keys := k1.keys, attempt := k1.attempt,
                      sems := k.sems[s := k.sems[s].(scount := c)])
    ensures Law(k, e, k1)
  {
    hide Pids;
  }

  lemma EmptiedCalls(k: State, e: Event, s: int, k1: State)
    requires Inv(k) && !BadSem(k, s) && |k1.procs| == |k.procs| && (e.EvSemReset? || e.EvSemDelete?)
    requires forall p :: 0 <= p < |k.procs| ==>
      k1.procs[p] == if WaitsOn(k, s, p) then k.procs[p].(prstate := PR_READY) else k.procs[p]
    ensures Calls(k, e, k1) <==> k.lists[k.sems[s].squeue] != []
  {
    hide Inv, Calls;
    InvShape(k);
    var l := k.lists[k.sems[s].squeue];
    if l != [] {
      PidIn(k, k.sems[s].squeue, l[0]);
      QueueIs(k, s, l[0]);
      Called(k, e, k1, l[0]);
    } else {
      forall p | 0 <= p < |k.procs| ensures k1.procs[p] == k.procs[p] { QueueIs(k, s, p); }
      NoCalls(k, e, k1);
    }
  }

  lemma SplitEmpties(k: State, e: Event) returns (k1: State, asked: bool)
    requires Inv(k) && Enabled(k, e) && (e.EvSemReset? || e.EvSemDelete?)
    ensures Split(k, e, k1, asked)
  {
    hide Inv, Step, Enabled, Split, Emptied, Calls;
    var s := e.sem;
    InvShape(k);
    if e.EvSemDelete? { StepDelete(k, s); } else { StepReset(k, s, e.count); }
    if UsedSem(k, s) && (e.EvSemReset? ==> e.count >= 0) {
      k1, asked := SplitEmptied(k, e, s, if e.EvSemReset? then e.count else CountAfter(k, e, s));
    } else {
      SlicePositive(k);
      NoCalls(k, e, k);
      SplitRefused(k, e);
      return k, false;
    }
  }

  // The clock interrupt

  lemma ContDue(k: State, p: int)
    requires Shape(k) && p in k.lists[k.sleepq]
    ensures DueIn(WithCont(k, k.currpid, InTick), p) == DueIn(k, p)
  {
  }

  /** The state in which `wakeup` finds the sleepers: one tick closer, unless the first is overdue. */
  ghost function TickBase(k: State): (k': State)
    requires Shape(k) && k.lists[k.sleepq] != []
    ensures Shape(k')
  {
    if Prompt(k) then HeadDown(WithCont(k, k.currpid, InTick)) else WithCont(k, k.currpid, InTick)
  }

  lemma TickBaseIs(k: State)
    requires Inv(k) && k.lists[k.sleepq] != []
    ensures Inv(TickBase(k)) && k.readylist != k.sleepq && k.ndefers >= 0
    ensures Tick(k) == if HeadExpired(TickBase(k)) then Wakeup(TickBase(k)) else TickBase(k)
  {
    hide Inv, Wakeup;
    InvApart(k);
    var k1 := WithCont(k, k.currpid, InTick);
    TickPlan(k);
    HeadNotNegative(k);
    if Prompt(k) {
      HeadDownInv(k1);
    } else {
      ZeroHeadTick(k1);
    }
  }

  lemma HeadNotNegative(k: State)
    requires Inv(k) && k.lists[k.sleepq] != []
    ensures k.keys[k.lists[k.sleepq][0]] >= 0
  {
    hide Placed, ReadySorted, SemLaw, Mail, Top;
  }

  lemma TickBaseDue(k: State, p: int)
    requires Inv(k) && p in k.lists[k.sleepq]
    ensures Inv(TickBase(k)) && p in TickBase(k).lists[TickBase(k).sleepq]
    ensures Wakes(k, p) <==> DueIn(TickBase(k), p) == 0
    ensures DueIn(TickBase(k), p) == 0 ==> HeadExpired(TickBase(k))
  {
    hide Inv, Tick, Wakeup, Agenda, Due;
    TickBaseIs(k);
    InvShape(k);
    ContDue(k, p);
    if Prompt(k) {
      ContInv(k, InTick);
      HeadDownDue(WithCont(k, k.currpid, InTick), p);
    }
    DueBounds(TickBase(k), p);
  }

  lemma SleeperSet(k: State, p: int)
    requires Inv(k) && IsPid(k, p)
    ensures p in k.lists[k.sleepq] ==> p !in k.lists[k.readylist] && k.procs[p].prstate in {PR_SLEEP, PR_RECTIM}
  {
    hide ReadySorted, Tame, SemLaw, Mail, Top;
    assert PlacedOn(k, -1, k.sleepq) && PlacedOn(k, -1, k.readylist);
  }

  // What a release of the expired sleepers leaves, before the deferral ends.
  lemma WokenFields(k: State)
    requires Inv(k)
    ensures k.readylist != k.sleepq && k.ndefers >= 0
    ensures var n := Expired(k.lists[k.sleepq], k.keys);
            var kr := ReleaseAll(k, k.sleepq, n);
            && (forall p :: 0 <= p < |k.procs| ==>
                 kr.procs[p] == if p in k.lists[k.sleepq] && DueIn(k, p) == 0 then k.procs[p].(prstate := PR_READY)
                                else k.procs[p])
            && kr == k.(procs := kr.procs, lists := kr.lists, keys := kr.keys, attempt := kr.attempt,
                        ndefers := k.ndefers + 1)
            && (k.ndefers == 0 ==> (kr.attempt <==> n > 0))
  {
    hide Inv, Release, Agenda, Due;
    InvApart(k);
    var l := k.lists[k.sleepq];
    var n := Expired(l, k.keys);
    ReleaseEffect(DeferStart(k), k.sleepq, n);
    forall p | 0 <= p < |k.procs|
      ensures ReleaseAll(k, k.sleepq, n).procs[p] ==
        if p in l && DueIn(k, p) == 0 then k.procs[p].(prstate := PR_READY) else k.procs[p]
    {
      assert Released(DeferStart(k), ReleaseAll(k, k.sleepq, n), l[..n], p);
      if p in l { ExpiredHere(k, p); } else { PrefixMember(l, n, p); }
    }
  }

  lemma PrefixMember(l: seq<int>, n: nat, p: int)
    requires n <= |l| && p !in l
    ensures p !in l[..n]
  {
  }

  lemma ExpiredHere(k: State, p: int)
    requires Inv(k) && p in k.lists[k.sleepq]
    ensures p in k.lists[k.sleepq][..Expired(k.lists[k.sleepq], k.keys)] <==> DueIn(k, p) == 0
  {
    hide ReadySorted, SemLaw, Mail, Top;
    assert PlacedOn(k, -1, k.sleepq);
    ExpiredAreDue(k.lists[k.sleepq], k.keys, p);
    DueBase(k.lists[k.sleepq], k.keys, 0, 0, p);
  }

  lemma WokenInLine(k: State)
    requires Inv(k)
    ensures k.readylist != k.sleepq && k.ndefers >= 0
    ensures InLine(k.lists[k.readylist],
                   ReleaseAll(k, k.sleepq, Expired(k.lists[k.sleepq], k.keys)).lists[k.readylist], k.procs)
  {
    hide Inv, Release, InLine, Core;
    InvApart(k);
    InvCore(k);
    SlicePositive(k);
    CoreSame(k, DeferStart(k), -1, -1);
    forall p | p in k.lists[k.sleepq] ensures p !in k.lists[k.readylist] { PidIn(k, k.sleepq, p); SleeperSet(k, p); }
    SleepersInLine(DeferStart(k), Expired(k.lists[k.sleepq], k.keys));
  }

  lemma TickLaw(k: State, k1: State)
    requires Shape(k) && Shape(k1) && SameTables(k, k1)
    requires forall p :: 0 <= p < |k.procs| ==>
      k1.procs[p] == if Wakes(k, p) then k.procs[p].(prstate := PR_READY) else k.procs[p]
    requires k1 == k.(procs := k1.procs, lists := k1.lists, keys := k1.keys, attempt := k1.attempt,
                      conts := k.conts[k.currpid := InTick])
    ensures Law(k, EvTick, k1)
  {
    hide Pids, Wakes;
    forall p | 0 <= p < |k.procs|
      ensures ProcLaw(k, EvTick, k1, p)
    {
      assert k1.procs[p] == if Wakes(k, p) then k.procs[p].(prstate := PR_READY) else k.procs[p];
      assert k1.conts[p] == if p == k.currpid then InTick else k.conts[p];
    }
  }

  lemma TickCalls(k: State, k1: State)
    requires Inv(k) && |k1.procs| == |k.procs|
    requires forall p :: 0 <= p < |k.procs| ==>
      k1.procs[p] == if Wakes(k, p) then k.procs[p].(prstate := PR_READY) else k.procs[p]
    ensures Calls(k, EvTick, k1) <==> exists p :: 0 <= p < |k.procs| && Wakes(k, p)
  {
    hide Inv, Calls, DueIn, Prompt;
    InvShape(k);
    if p :| 0 <= p < |k.procs| && Wakes(k, p) {
      SleeperSet(k, p);
      Called(k, EvTick, k1, p);
    } else {
      NoCalls(k, EvTick, k1);
    }
  }

  // A tick that wakes nobody.
  lemma SplitSilentTick(k: State)
    requires Inv(k) && Enabled(k, EvTick) && (k.lists[k.sleepq] != [] ==> !HeadExpired(TickBase(k)))
    ensures Split(k, EvTick, Step(k, EvTick), false)
  {
    hide Inv, Step, Enabled, Core, InLine, Resched, Calls, Law, Wakeup, Wakes, DueIn, Prompt;
    StepTick(k);
    InvApart(k);
    InvCore(k);
    InvCore(Step(k, EvTick));
    SelfInLine(k.lists[k.readylist], k.procs);
    if k.lists[k.sleepq] != [] { TickBaseIs(k); }
    forall p | 0 <= p < |k.procs| ensures !Wakes(k, p) {
      if p in k.lists[k.sleepq] { TickBaseDue(k, p); } else { NotAsleepNoWake(k, p); }
    }
    TickLaw(k, Step(k, EvTick));
    TickCalls(k, Step(k, EvTick));
  }

  lemma NotAsleepNoWake(k: State, p: int)
    requires Shape(k) && p !in k.lists[k.sleepq]
    ensures !Wakes(k, p)
  {
  }

  lemma SplitWakingTick(k: State) returns (k1: State, asked: bool)
    requires Inv(k) && Enabled(k, EvTick) && k.lists[k.sleepq] != [] && HeadExpired(TickBase(k))
    ensures Split(k, EvTick, k1, asked)
  {
    hide Inv, Step, Enabled, Core, InLine, Resched, Calls, Law, Wakes, DueIn, Prompt, Release, Expired;
    StepTick(k);
    InvApart(k);
    InvCore(k);
    TickBaseIs(k);
    var b := TickBase(k);
    var n := Expired(b.lists[b.sleepq], b.keys);
    var kr := ReleaseAll(b, b.sleepq, n);
    k1 := kr.(ndefers := k.ndefers);
    asked := k.ndefers == 0 && kr.attempt;
    WokenFields(b);
    WokenInLine(b);
    WakeCore(b);
    SlicePositive(k);
    CoreSame(kr, k1, -1, -1);
    forall p | 0 <= p < |k.procs|
      ensures k1.procs[p] == if Wakes(k, p) then k.procs[p].(prstate := PR_READY) else k.procs[p]
    {
      if p in k.lists[k.sleepq] { TickBaseDue(k, p); } else { NotAsleepNoWake(k, p); }
    }
    TickLaw(k, k1);
    TickCalls(k, k1);
    HeadWakes(k);
  }

  lemma HeadWakes(k: State)
    requires Inv(k) && k.lists[k.sleepq] != [] && HeadExpired(TickBase(k))
    ensures Inv(TickBase(k)) && Expired(TickBase(k).lists[TickBase(k).sleepq], TickBase(k).keys) > 0
    ensures exists p :: 0 <= p < |k.procs| && Wakes(k, p)
  {
    hide Inv, Wakeup, Tick, Wakes;
    InvShape(k);
    TickBaseIs(k);
    var p := k.lists[k.sleepq][0];
    assert p in k.lists[k.sleepq];
    TickBaseDue(k, p);
    HeadDue(TickBase(k));
    PidIn(k, k.sleepq, p);
  }

  lemma HeadDue(k: State)
    requires Inv(k) && HeadExpired(k)
    ensures DueIn(k, k.lists[k.sleepq][0]) == 0
  {
    hide ReadySorted, SemLaw, Mail, Top, Placed;
    HeadNotNegative(k);
  }

  lemma SplitTick(k: State) returns (k1: State, asked: bool)
    requires Inv(k) && Enabled(k, EvTick)
    ensures Split(k, EvTick, k1, asked)
  {
    hide Inv, Step, Enabled, Split, TickBase;
    InvShape(k);
    if k.lists[k.sleepq] != [] && HeadExpired(TickBase(k)) {
      k1, asked := SplitWakingTick(k);
    } else {
      SplitSilentTick(k);
      return Step(k, EvTick), false;
    }
  }

  // Every step

  lemma Parts(k: State, e: Event) returns (k1: State, asked: bool)
    requires Inv(k) && Enabled(k, e)
    ensures Split(k, e, k1, asked) && (e.EvCreate? ==> !asked)
  {
    hide Inv, Step, Enabled, Split;
    match e
    case EvYield => SplitYield(k); return k, true;
    case EvDeferStart => SplitDeferStart(k); return DeferStart(k), false;
    case EvDeferStop =>
      SplitDeferStop(k);
      return k.(ndefers := if k.ndefers > 0 then k.ndefers - 1 else k.ndefers), k.ndefers == 1 && k.attempt;
    case EvSemCreate(s, c) =>
      StepSemCreate(k, s, c);
      InvShape(k);
      SplitSemCreate(k, s, c);
      return SemCreate(k, s, c), false;
    case EvWait(s) => k1, asked := SplitWait(k, s);
    case EvSignal(_) => k1, asked := SplitSignal(k, e);
    case EvSignalN(_) => k1, asked := SplitSignal(k, e);
    case EvSemReset(_, _) => k1, asked := SplitEmpties(k, e);
    case EvSemDelete(_) => k1, asked := SplitEmpties(k, e);
    case EvTick => k1, asked := SplitTick(k);
    case EvTickTail => k1, asked := SplitTickTail(k);
    case EvSleep(d) => k1, asked := SplitSleep(k, d);
    case EvSend(p, m) => k1, asked := SplitSend(k, p, m);
    case EvReceive => k1, asked := SplitReceive(k);
    case EvRecvTime(m) => k1, asked := SplitRecvTime(k, m);
    case EvSuspend(p) => k1, asked := SplitSuspend(k, p);
    case EvResume(p) => k1, asked := SplitResume(k, p);
    case EvKill(p) => k1, asked := SplitKill(k, p);
    case EvCreate(p, prio) =>
      StepCreate(k, p, prio);
      InvShape(k);
      SplitCreate(k, p, prio);
      return Create(k, p, prio), false;
    case EvReceiveTail => SplitTails(k, e); return Step(k, e), false;
    case EvRecvTimeTail => SplitTails(k, e); return Step(k, e), false;
    case EvRecvClr => SplitTails(k, e); return Step(k, e), false;
  }
}
