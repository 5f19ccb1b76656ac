/** One-slot mailboxes (Chapter 8): over every run each message sent is received exactly once and unchanged, and a
    timed receive reports a timeout exactly when nothing was sent to it in time. */
module Mailboxes {
  import opened Types
  import opened Lists
  import opened Queue
  import opened Delta
  import opened KernelState
  import opened KernelInv
  import opened KernelRuns
  import opened Wakeups

  /** The message waiting in the mailbox of p. */
  ghost function Pending(k: State, p: int): seq<int>
    requires IsPid(k, p)
  {
    if k.procs[p].prhasmsg then [k.procs[p].prmsg] else []
  }

  /** The message that a step delivers to p. */
  ghost function SentBy(k: State, e: Event, p: int): seq<int>
    requires IsPid(k, p)
  {
    match e
    case EvSend(r, m) => if r == p && !BadPid(k, p) && !k.procs[p].prhasmsg then [m] else []
    case _ => []
  }

  /** The message that a step returns to p, when p is the one that takes the step. */
  ghost function TakenBy(k: State, e: Event, p: int): seq<int>
    requires Shape(k) && IsPid(k, p)
  {
    if k.currpid != p then []
    else match e
      case EvReceive => Pending(k, p)
      case EvRecvTime(m) => if m >= 0 then Pending(k, p) else []
      case EvReceiveTail => [k.procs[p].prmsg]
      case EvRecvTimeTail => Pending(k, p)
      case EvRecvClr => Pending(k, p)
      case _ => []
  }

  /** The mailboxes are the same. */
  ghost predicate MailSame(k: State, k': State) {
    && |k'.procs| == |k.procs|
    && forall p :: 0 <= p < |k.procs| ==>
         && k'.procs[p].prhasmsg == k.procs[p].prhasmsg && k'.procs[p].prmsg == k.procs[p].prmsg
         && (k.procs[p].prstate != PR_FREE ==> k'.procs[p].prstate != PR_FREE)
  }

  lemma ReschedMail(k: State)
    requires Shape(k) && CanResched(k)
    ensures MailSame(k, Resched(k))
  {
  }

  lemma ReleaseAllMail(k: State, q: int, n: nat)
    requires Shape(k) && q in k.lists && q != k.readylist && n <= |k.lists[q]| && k.ndefers >= 0
    ensures MailSame(k, ReleaseAll(k, q, n))
  {
    ReleaseEffect(DeferStart(k), q, n);
    forall p | 0 <= p < |k.procs|
      ensures var k' := ReleaseAll(k, q, n);
              && k'.procs[p].prhasmsg == k.procs[p].prhasmsg && k'.procs[p].prmsg == k.procs[p].prmsg
              && (k.procs[p].prstate != PR_FREE ==> k'.procs[p].prstate != PR_FREE)
    {
      assert Released(DeferStart(k), ReleaseAll(k, q, n), k.lists[q][..n], p);
    }
  }

  lemma DeferStopMail(k: State)
    requires Shape(k) && CanStop(k)
    ensures MailSame(k, DeferStop(k))
  {
  }

  lemma ReadyMail(k: State, p: int)
    requires Shape(k) && IsPid(k, p)
    ensures MailSame(k, Ready(k, p))
  {
    hide Resched;
    ReschedMail(Enroll(k, p));
  }

  lemma EmptiedMail(k: State, s: int, count: int)
    requires Inv(k) && !BadSem(k, s) && count >= 0
    ensures SemQueueApart(k, s) && MailSame(k, Emptied(k, s, count))
  {
    hide Inv, Core, ReleaseAll, DeferStop;
    InvApart(k);
    var q := k.sems[s].squeue;
    EmptiedCore(k, s, count);
    ReleaseAllMail(k, q, |k.lists[q]|);
    DeferStopMail(WithCount(ReleaseAll(k, q, |k.lists[q]|), s, count));
  }

  lemma WakeupMail(k: State)
    requires Shape(k) && k.readylist != k.sleepq && k.ndefers >= 0
    ensures MailSame(k, Wakeup(k))
  {
    hide DeferStop;
    var n := Expired(k.lists[k.sleepq], k.keys);
    ReleaseAllMail(k, k.sleepq, n);
    DeferStopMail(ReleaseAll(k, k.sleepq, n));
  }

  // The steps that touch no mailbox

  ghost predicate Postal(e: Event) {
    e.EvSend? || e.EvReceive? || e.EvReceiveTail? || e.EvRecvClr? || e.EvRecvTime? || e.EvRecvTimeTail? || e.EvCreate?
  }

  lemma WaitMail(k: State, s: int)
    requires Shape(k) && (UsedSem(k, s) && k.sems[s].scount <= 0 ==> CanBlock(k))
    ensures MailSame(k, Wait(k, s))
  {
    hide Resched;
    if UsedSem(k, s) && k.sems[s].scount <= 0 { ReschedMail(Blocked(k, s)); }
  }

  lemma SemUpMail(k: State, s: int)
    requires Shape(k) && !BadSem(k, s) && (k.sems[s].scount < 0 ==> k.lists[k.sems[s].squeue] != [])
    ensures MailSame(k, SemUp(k, s))
  {
    hide Ready;
    if k.sems[s].scount < 0 {
      ReadyMail(Unwait(k, s), k.lists[k.sems[s].squeue][0]);
    }
  }

  lemma SemMail(k: State, e: Event)
    requires Inv(k) && Enabled(k, e)
    requires e.EvWait? || e.EvSignal? || e.EvSignalN? || e.EvSemCreate?
    ensures MailSame(k, Step(k, e))
  {
    hide Inv, Step, Enabled, Wait, SemUp;
    InvShape(k);
    match e
    case EvWait(s) => StepWait(k, s); WaitMail(k, s);
    case EvSignal(s) => StepSignal(k, s); if UsedSem(k, s) { SemUpMail(k, s); }
    case EvSignalN(s) => StepSignalN(k, s); SemUpMail(k, s);
    case EvSemCreate(s, c) => StepSemCreate(k, s, c);
  }

  lemma EmptyMail(k: State, e: Event)
    requires Inv(k) && Enabled(k, e) && (e.EvSemReset? || e.EvSemDelete?)
    ensures MailSame(k, Step(k, e))
  {
    hide Inv, Step, Enabled, Emptied;
    InvShape(k);
    match e
    case EvSemReset(s, c) => StepReset(k, s, c); if UsedSem(k, s) && c >= 0 { EmptiedMail(k, s, c); }
    case EvSemDelete(s) =>
      StepDelete(k, s);
      if UsedSem(k, s) { EmptiedMail(k, s, (if k.sems[s].scount < 0 then 0 else k.sems[s].scount) + 1); }
  }

  lemma ClockMail(k: State, e: Event)
    requires Inv(k) && Enabled(k, e)
    requires e.EvYield? || e.EvDeferStart? || e.EvDeferStop? || e.EvTick? || e.EvTickTail? || e.EvSleep?
    ensures MailSame(k, Step(k, e))
  {
    hide Inv, Step, Enabled, Tick, TickTail, SleepMs, DeferStop, Resched;
    InvShape(k);
    match e
    case EvYield => StepYield(k); ReschedMail(k);
    case EvDeferStart => StepDeferStart(k);
    case EvDeferStop => StepDeferStop(k); DeferStopMail(k);
    case EvTick => StepTick(k); TickMail(k);
    case EvTickTail => StepTickTail(k); TickTailMail(k);
    case EvSleep(d) => StepSleep(k, d); SleepMail(k, d);
  }

  lemma SleepMail(k: State, d: int)
    requires Shape(k) && CanResched(k) && (d != 0 ==> CanBlock(k) && k.readylist != k.sleepq)
    ensures MailSame(k, SleepMs(k, d))
  {
    hide Resched;
    ReschedMail(if d == 0 then k else GoToSleep(k, d, PR_SLEEP));
  }

  lemma TickMail(k: State)
    requires Shape(k) && k.readylist != k.sleepq && k.ndefers >= 0
    ensures MailSame(k, Tick(k))
  {
    hide Wakeup;
    if k.lists[k.sleepq] != [] {
      WakeupMail(HeadDown(WithCont(k, k.currpid, InTick)));
    }
  }

  lemma TickTailMail(k: State)
    requires Shape(k) && CanResched(k)
    ensures MailSame(k, TickTail(k))
  {
    hide Resched;
    if k.preempt - 1 <= 0 { ReschedMail(WithCont(k, k.currpid, Running).(preempt := QUANTUM)); }
  }

  lemma SuspendMail(k: State, p: int)
    requires Shape(k)
    requires p == k.currpid && p != NULLPROC ==> CanBlock(k)
    requires IsPid(k, p) && k.procs[p].prstate == PR_CURR ==> p == k.currpid
    ensures MailSame(k, Suspend(k, p))
  {
    hide Resched;
    if p == k.currpid && p != NULLPROC {
      ReschedMail(WithState(k, p, PR_SUSP));
    }
  }

  lemma ResumeMail(k: State, p: int)
    requires Shape(k)
    ensures MailSame(k, Resume(k, p))
  {
    hide Ready;
    if !BadPid(k, p) {
      ReadyMail(k, p);
    }
  }

  /** Killing a process frees that process alone and touches no mailbox. */
  lemma KillMail(k: State, r: int)
    requires Shape(k)
    requires r == k.currpid && r != NULLPROC ==> CanBlock(k)
    requires IsPid(k, r) && k.procs[r].prstate == PR_CURR ==> r == k.currpid
    requires IsPid(k, r) && k.procs[r].prstate == PR_WAIT ==> !BadSem(k, k.procs[r].prsem)
    ensures var k' := Kill(k, r);
            forall p :: 0 <= p < |k.procs| ==>
              && k'.procs[p].prhasmsg == k.procs[p].prhasmsg && k'.procs[p].prmsg == k.procs[p].prmsg
              && (k.procs[p].prstate != PR_FREE && p != r ==> k'.procs[p].prstate != PR_FREE)
  {
    hide Resched;
    if r == k.currpid && r != NULLPROC {
      ReschedMail(Dead(k, r));
    }
  }

  /** The mailbox law for one step: what was pending and what is sent is what is taken and what stays pending; and a
      process stops existing only by being killed. */
  ghost predicate MailStep(k: State, e: Event, k': State, p: int)
    requires Shape(k) && IsPid(k, p) && IsPid(k', p)
  {
    && Pending(k, p) + SentBy(k, e, p) == TakenBy(k, e, p) + Pending(k', p)
    && (k.procs[p].prstate != PR_FREE && e != EvKill(p) ==> k'.procs[p].prstate != PR_FREE)
  }

  lemma SendMail(k: State, r: int, msg: int, p: int)
    requires Shape(k) && IsPid(k, p)
    ensures MailStep(k, EvSend(r, msg), Send(k, r, msg), p)
  {
    hide Ready, GiveBack, Without;
    if !BadPid(k, r) && !k.procs[r].prhasmsg {
      if k.procs[r].prstate == PR_RECV {
        ReadyMail(Delivered(k, r, msg), r);
      } else if k.procs[r].prstate == PR_RECTIM {
        ReadyMail(Unsleep(Delivered(k, r, msg), r), r);
      }
    }
  }

  lemma ReceiveMail(k: State, p: int)
    requires Shape(k) && IsPid(k, p) && (!HasMessage(k) ==> CanBlock(k))
    ensures MailStep(k, EvReceive, Receive(k), p)
  {
    hide Resched;
    if !HasMessage(k) {
      ReschedMail(WithCont(WithState(k, k.currpid, PR_RECV), k.currpid, InReceive));
    }
  }

  lemma RecvTimeMail(k: State, m: int, p: int)
    requires Shape(k) && IsPid(k, p) && k.readylist != k.sleepq && (m >= 0 && !HasMessage(k) ==> CanBlock(k))
    ensures MailStep(k, EvRecvTime(m), RecvTime(k, m), p)
  {
    hide Resched;
    if m >= 0 && !HasMessage(k) {
      ReschedMail(WithCont(GoToSleep(k, m, PR_RECTIM), k.currpid, InRecvTime));
    }
  }

  lemma SameMailStep(k: State, e: Event, k': State, p: int)
    requires Shape(k) && IsPid(k, p) && MailSame(k, k') && !Postal(e)
    ensures MailStep(k, e, k', p)
  {
  }

  /** Every step obeys the mailbox law; in particular a process resumed in `receive` always finds a message. */
  lemma MailLaw(k: State, e: Event, p: int)
    requires Inv(k) && Enabled(k, e) && IsPid(k, p) && !(e.EvCreate? && e.pid == p)
    ensures MailStep(k, e, Step(k, e), p)
  {
    hide Inv, Step, MailStep, MailSame, Enabled;
    InvShape(k);
    if e.EvWait? || e.EvSignal? || e.EvSignalN? || e.EvSemCreate? {
      SemMail(k, e);
      SameMailStep(k, e, Step(k, e), p);
    } else if e.EvSemReset? || e.EvSemDelete? {
      EmptyMail(k, e);
      SameMailStep(k, e, Step(k, e), p);
    } else if e.EvYield? || e.EvDeferStart? || e.EvDeferStop? || e.EvTick? || e.EvTickTail? || e.EvSleep? {
      ClockMail(k, e);
      SameMailStep(k, e, Step(k, e), p);
    } else if e.EvSuspend? || e.EvResume? || e.EvKill? || e.EvCreate? {
      ProcessLaw(k, e, p);
    } else {
      PostalLaw(k, e, p);
    }
  }

  lemma PostalLaw(k: State, e: Event, p: int)
    requires Inv(k) && Enabled(k, e) && IsPid(k, p)
    requires e.EvSend? || e.EvReceive? || e.EvRecvTime? || e.EvReceiveTail? || e.EvRecvTimeTail? || e.EvRecvClr?
    ensures MailStep(k, e, Step(k, e), p)
  {
    hide Inv, Step, Enabled, Send, Receive, RecvTime;
    InvShape(k);
    match e
    case EvSend(r, m) => StepSend(k, r, m); SendMail(k, r, m, p);
    case EvReceive => StepReceive(k); ReceiveMail(k, p);
    case EvRecvTime(m) => StepRecvTime(k, m); RecvTimeMail(k, m, p);
    case EvReceiveTail => StepReceiveTail(k); TailMail(k, p);
    case EvRecvTimeTail => StepRecvTimeTail(k);
    case EvRecvClr => StepRecvClr(k);
  }

  lemma ProcessLaw(k: State, e: Event, p: int)
    requires Inv(k) && Enabled(k, e) && IsPid(k, p) && !(e.EvCreate? && e.pid == p)
    requires e.EvSuspend? || e.EvResume? || e.EvKill? || e.EvCreate?
    ensures MailStep(k, e, Step(k, e), p)
  {
    hide Inv, Step, Enabled, Suspend, Resume, Kill, MailStep, MailSame;
    InvShape(k);
    match e
    case EvSuspend(r) => StepSuspend(k, r); SuspendMail(k, r); SameMailStep(k, e, Step(k, e), p);
    case EvResume(r) => StepResume(k, r); ResumeMail(k, r); SameMailStep(k, e, Step(k, e), p);
    case EvKill(r) => StepKill(k, r); KillMail(k, r); KillMailStep(k, e, Step(k, e), p);
    case EvCreate(r, prio) => CreateMailStep(k, e, p);
  }

  lemma KillMailStep(k: State, e: Event, k': State, p: int)
    requires Shape(k) && IsPid(k, p) && IsPid(k', p) && e.EvKill?
    requires k'.procs[p].prhasmsg == k.procs[p].prhasmsg && k'.procs[p].prmsg == k.procs[p].prmsg
    requires k.procs[p].prstate != PR_FREE && p != e.pid ==> k'.procs[p].prstate != PR_FREE
    ensures MailStep(k, e, k', p)
  {
  }

  lemma CreateMailStep(k: State, e: Event, p: int)
    requires Inv(k) && Enabled(k, e) && IsPid(k, p) && e.EvCreate? && e.pid != p
    ensures MailStep(k, e, Step(k, e), p)
  {
    hide Inv, Step, Enabled;
    InvShape(k);
    StepCreate(k, e.pid, e.prio);
  }

  lemma TailMail(k: State, p: int)
    requires Inv(k) && k.conts[k.currpid] == InReceive && IsPid(k, p)
    ensures MailStep(k, EvReceiveTail, ReceiveTail(k), p)
  {
    assert MailOk(k.procs[k.currpid], k.conts[k.currpid]);
  }

  // Runs

  ghost function Sent(k: State, es: seq<Event>, p: int): seq<int>
    requires Inv(k) && Runs(k, es) && IsPid(k, p)
    decreases |es|
  {
    if es == [] then [] else SentBy(k, es[0], p) + Sent(Step(k, es[0]), es[1..], p)
  }

  ghost function Taken(k: State, es: seq<Event>, p: int): seq<int>
    requires Inv(k) && Runs(k, es) && IsPid(k, p)
    decreases |es|
  {
    if es == [] then [] else TakenBy(k, es[0], p) + Taken(Step(k, es[0]), es[1..], p)
  }

  ghost predicate NotRecreated(es: seq<Event>, p: int) {
    forall i :: 0 <= i < |es| ==> !(es[i].EvCreate? && es[i].pid == p)
  }

  /** Over every run in which the process slot is not reused: the messages sent to p, in order, are exactly those
      it has received, in order, and the one still in its mailbox. Nothing is lost, repeated or changed. */
  lemma {:induction false} MessagesConserved(k: State, es: seq<Event>, p: int)
    requires Inv(k) && Runs(k, es) && IsPid(k, p) && NotRecreated(es, p)
    ensures Pending(k, p) + Sent(k, es, p) == Taken(k, es, p) + Pending(Exec(k, es), p)
    decreases |es|
  {
    hide Placed, ReadySorted, Tame, SemLaw, Mail, Separate, OneCurrent, Top, Apply, Shape, Enabled;
    if es != [] {
      hide Inv, Step, Enabled, TakenBy, SentBy, Pending, MailStep;
      var e, k1 := es[0], Step(k, es[0]);
      MailEquation(k, e, p);
      MessagesConserved(k1, es[1..], p);
      Chain(Pending(k, p), SentBy(k, e, p), TakenBy(k, e, p), Pending(k1, p),
            Sent(k1, es[1..], p), Taken(k1, es[1..], p), Pending(Exec(k1, es[1..]), p));
    }
  }

  lemma MailEquation(k: State, e: Event, p: int)
    requires Inv(k) && Enabled(k, e) && IsPid(k, p) && !(e.EvCreate? && e.pid == p)
    ensures IsPid(Step(k, e), p) && Pending(k, p) + SentBy(k, e, p) == TakenBy(k, e, p) + Pending(Step(k, e), p)
  {
    hide Step, Enabled;
    MailLaw(k, e, p);
  }

  // Conservation of two stretches makes conservation of the whole.
  lemma Chain(a: seq<int>, s: seq<int>, t: seq<int>, b: seq<int>, s': seq<int>, t': seq<int>, c: seq<int>)
    requires a + s == t + b && b + s' == t' + c
    ensures a + (s + s') == (t + t') + c
  {
    assert a + (s + s') == (a + s) + s';
    assert (t + b) + s' == t + (b + s');
    assert t + (t' + c) == (t + t') + c;
  }

  /** p does not run during es. */
  ghost predicate NotRunning(k: State, es: seq<Event>, p: int)
    requires Inv(k) && Runs(k, es)
    decreases |es|
  {
    es == [] || (k.currpid != p && NotRunning(Step(k, es[0]), es[1..], p))
  }

  // A process that does not run takes no message.
  lemma NothingTaken(k: State, es: seq<Event>, p: int)
    requires Inv(k) && Runs(k, es) && IsPid(k, p) && NotRunning(k, es, p)
    ensures Taken(k, es, p) == []
    decreases |es|
  {
    if es != [] {
      hide Inv, Step, Enabled;
      NothingTaken(Step(k, es[0]), es[1..], p);
    }
  }

  lemma StaysEmpty(k: State, e: Event, p: int)
    requires Inv(k) && Enabled(k, e) && IsPid(k, p) && k.currpid != p && !(e.EvCreate? && e.pid == p) && e != EvKill(p)
    requires k.procs[p].prstate != PR_FREE && Pending(k, p) == [] && SentBy(k, e, p) == []
    ensures IsPid(Step(k, e), p) && Pending(Step(k, e), p) == [] && Step(k, e).procs[p].prstate != PR_FREE
    ensures !(e.EvSend? && e.pid == p)
  {
    hide Step, Enabled;
    MailLaw(k, e, p);
  }

  // While its mailbox stays empty, every attempt to send to a live process would succeed.
  lemma {:induction false} NoSendMeansNone(k: State, es: seq<Event>, p: int)
    requires Inv(k) && Runs(k, es) && IsPid(k, p) && NotRunning(k, es, p) && NotRecreated(es, p)
    requires k.procs[p].prstate != PR_FREE && Pending(k, p) == []
    requires (forall i :: 0 <= i < |es| ==> es[i] != EvKill(p)) && Sent(k, es, p) == []
    ensures Undisturbed(PR_RECTIM, es, p)
    decreases |es|
  {
    hide Inv, Enabled, Shape, Step;
    if es != [] {
      hide Inv, Step, Enabled, Shape;
      var e, k1 := es[0], Step(k, es[0]);
      StaysEmpty(k, e, p);
      NoSendMeansNone(k1, es[1..], p);
      forall i | 0 <= i < |es|
        ensures es[i] != EvKill(p) && !(es[i].EvSend? && es[i].pid == p)
      {
        assert i > 0 ==> es[i] == es[1..][i - 1];
      }
    }
  }

  // The end of a timed receive whose caller sleeps with a certain deadline.
  lemma TimeoutFrom(k: State, p: int, es: seq<Event>)
    requires Inv(k) && Prompt(k) && Runs(k, es) && IsPid(k, p) && p in k.lists[k.sleepq]
    requires k.procs[p].prstate == PR_RECTIM && NotRunning(k, es, p) && NotRecreated(es, p) && NoZeroWait(es)
    requires (forall i :: 0 <= i < |es| ==> es[i] != EvKill(p)) && Exec(k, es).currpid == p
    ensures Pending(Exec(k, es), p) == Sent(k, es, p)
    ensures Sent(k, es, p) == [] ==> Ticks(es) >= DueIn(k, p)
  {
    SentPending(k, p, es);
    if Sent(k, es, p) == [] {
      SilentTimeout(k, p, es);
    }
  }

  lemma SentPending(k: State, p: int, es: seq<Event>)
    requires Inv(k) && Runs(k, es) && IsPid(k, p) && k.procs[p].prstate == PR_RECTIM
    requires NotRunning(k, es, p) && NotRecreated(es, p)
    ensures Pending(Exec(k, es), p) == Sent(k, es, p)
  {
    hide Runs, Exec, Step, Sent, Taken, NotRunning, Shape;
    RectimEmpty(k, p);
    MessagesConserved(k, es, p);
    NothingTaken(k, es, p);
    assert [] + Sent(k, es, p) == Sent(k, es, p) && [] + Pending(Exec(k, es), p) == Pending(Exec(k, es), p);
  }

  lemma SilentTimeout(k: State, p: int, es: seq<Event>)
    requires Inv(k) && Prompt(k) && Runs(k, es) && IsPid(k, p) && p in k.lists[k.sleepq]
    requires k.procs[p].prstate == PR_RECTIM && NotRunning(k, es, p) && NotRecreated(es, p) && NoZeroWait(es)
    requires (forall i :: 0 <= i < |es| ==> es[i] != EvKill(p)) && Exec(k, es).currpid == p
    requires Sent(k, es, p) == []
    ensures Ticks(es) >= DueIn(k, p)
  {
    hide Runs, Exec, Step, Sent, NotRunning, Prompt, DueIn, Placed, ReadySorted, Tame, SemLaw, Mail, Separate, OneCurrent;
    if Ticks(es) < DueIn(k, p) {
      RectimEmpty(k, p);
      NoSendMeansNone(k, es, p);
      StillAsleep(k, p, es);
      CurrentAwake(Exec(k, es));
    }
  }

  lemma CurrentAwake(k: State)
    requires Inv(k)
    ensures k.sleepq in k.lists && k.currpid !in k.lists[k.sleepq]
  {
    CurrentNotQueued(k, k.sleepq);
  }

  /** A timed receive that blocked: when its caller runs again, `recvtime` reports a timeout if and only if no message
      was sent to it meanwhile, and then at least the ticks it asked for have passed; otherwise it returns the one
      message that was sent. */
  lemma TimeoutIff(k: State, maxwait: int, k1: State, es: seq<Event>)
    requires Inv(k) && Prompt(k) && maxwait >= 1
    requires Enabled(k, EvRecvTime(maxwait)) && Blocks(k, EvRecvTime(maxwait)) && k1 == Step(k, EvRecvTime(maxwait))
    requires Runs(k1, es) && IsPid(k1, k.currpid) && NotRunning(k1, es, k.currpid)
    requires NotRecreated(es, k.currpid) && NoZeroWait(es) && forall i :: 0 <= i < |es| ==> es[i] != EvKill(k.currpid)
    requires Exec(k1, es).currpid == k.currpid
    ensures var sent, f := Sent(k1, es, k.currpid), Exec(k1, es);
      && (!HasMessage(f) <==> sent == [])
      && (!HasMessage(f) ==> Ticks(es) >= maxwait)
      && (HasMessage(f) ==> sent == [f.procs[f.currpid].prmsg])
  {
    hide Step, Prompt, DueIn, Placed, ReadySorted, Tame, SemLaw, Mail, Separate;
    BlockStep(k, EvRecvTime(maxwait), k.currpid);
    PromptStep(k, EvRecvTime(maxwait));
    TimeoutFrom(k1, k.currpid, es);
  }

  lemma RectimEmpty(k: State, p: int)
    requires Inv(k) && IsPid(k, p) && k.procs[p].prstate == PR_RECTIM
    ensures Pending(k, p) == []
  {
    assert MailOk(k.procs[p], k.conts[p]);
  }
}
