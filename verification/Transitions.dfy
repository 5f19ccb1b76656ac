/** The laws of StepLaws hold of every step, and what follows over runs: who is woken, freed and switched in, with how
    long a time slice, and in which order. */
module Transitions {
  import opened Types
  import opened Lists
  import opened Queue
  import opened Delta
  import opened KernelState
  import opened KernelInv
  import opened KernelRuns
  import opened Wakeups
  import opened ReadyOrder
  import opened StepLaws
  import opened StepParts

  /** Every step obeys the law: each process is left in exactly the state that the event and its old state determine,
      each field of every table entry becomes what the event says, and whoever is switched in has a full time slice. */
  lemma StepLaw(k: State, e: Event)
    requires Inv(k) && Enabled(k, e)
    ensures Law(k, e, Step(k, e))
  {
    hide Inv, Step, Enabled, Core, Resched, InLine, Calls, ProcLaw, SentryLaw;
    var k1, asked := Parts(k, e);
    if asked {
      SplitSlice(k, e, k1);
      ReschedDispatched(k1);
      DispatchedLaw(k, e, k1, Resched(k1));
    }
  }

  lemma SplitSlice(k: State, e: Event, k1: State)
    requires Law(k, e, k1) && k1.currpid == k.currpid
    ensures k1.preempt == SliceAfter(k.preempt, e, false)
  {
  }

  // Who runs

  /** Nobody ready has the priority of the current process. */
  ghost predicate Alone(k: State)
    requires Shape(k)
  {
    forall q :: q in k.lists[k.readylist] && IsPid(k, q) ==> k.procs[q].prprio < k.procs[k.currpid].prprio
  }

  lemma ReschedChoice(k: State)
    requires Core(k, -1, -1) && k.procs[k.currpid].prstate != PR_READY && CanResched(k)
    ensures k.ndefers > 0 ==> Resched(k).currpid == k.currpid
    ensures k.ndefers == 0 ==> Resched(k).currpid != k.currpid || Alone(Resched(k))
  {
    hide Placed, Tame, SemLaw, Mail, Enroll, Switch;
    var c := k.currpid;
    if k.lists[k.readylist] != [] { HeadReady(k); }
    if k.ndefers > 0 {
    } else if k.procs[c].prstate != PR_CURR {
      SwitchedTo(k);
    } else if k.procs[c].prprio <= FirstKey(k) {
      EnrolledHead(k);
    } else {
      forall q | q in k.lists[k.readylist] && IsPid(k, q)
        ensures k.procs[q].prprio < k.procs[c].prprio
      {
        BelowFront(k, q);
      }
    }
  }

  lemma SwitchedTo(k: State)
    requires Shape(k) && k.lists[k.readylist] != []
    ensures Switch(k).currpid == k.lists[k.readylist][0]
  {
  }

  lemma BelowFront(k: State, q: int)
    requires Shape(k) && ReadySorted(k) && q in k.lists[k.readylist] && IsPid(k, q)
    ensures k.procs[q].prprio <= FirstKey(k)
  {
    var l := k.lists[k.readylist];
    assert k.keys[l[IndexOf(l, q)]] <= k.keys[l[0]];
  }

  lemma CallsSame(k: State, e: Event, k1: State, k': State)
    requires Dispatched(k1, k')
    ensures Calls(k, e, k') <==> Calls(k, e, k1)
  {
    assert forall p :: NewlyReady(k, k', p) <==> NewlyReady(k, k1, p);
  }

  /** The choice of process: none under deferral; without a call for one the current process goes on if it can; with
      one, another process runs unless the current one has a higher priority than all that are ready. */
  lemma ChoiceLaw(k: State, e: Event)
    requires Inv(k) && Enabled(k, e)
    ensures var k' := Step(k, e);
            && Shape(k) && Shape(k') && |k'.procs| == |k.procs|
            && (k'.ndefers > 0 ==> k'.currpid == k.currpid)
            && (!Calls(k, e, k') && Stand(k'.procs[k.currpid].prstate) == PR_READY ==> k'.currpid == k.currpid)
            && (k'.ndefers == 0 && Calls(k, e, k') ==> k'.currpid != k.currpid || Alone(k'))
  {
    hide Inv, Step, Enabled, Core, Resched, InLine, Calls, ProcLaw, SentryLaw;
    var k1, asked := Parts(k, e);
    if asked {
      ReschedDispatched(k1);
      CoreShape(k1);
      ReschedChoice(k1);
      CallsSame(k, e, k1, Resched(k1));
      assert Stand(Resched(k1).procs[k.currpid].prstate) == Stand(k1.procs[k.currpid].prstate);
    } else {
      InvCore(k1);
    }
  }

  // First come, first served on the ready list

  lemma ReschedInLine(l: seq<int>, k: State, procs: seq<Proc>)
    requires Core(k, -1, -1) && k.procs[k.currpid].prstate != PR_READY && CanResched(k)
    requires InLine(l, k.lists[k.readylist], procs) && k.currpid !in l
    requires |procs| == |k.procs| && forall q :: 0 <= q < |procs| ==> procs[q].prprio == k.procs[q].prprio
    ensures InLine(l, Resched(k).lists[k.readylist], procs)
    ensures Resched(k).currpid != k.currpid ==>
      forall q :: q in l && q in Resched(k).lists[k.readylist] && Tied(procs, q, Resched(k).currpid) ==>
        Before(l, Resched(k).currpid, q)
  {
    hide Core, InLine, Enroll, Before, Tied;
    CoreShape(k);
    if k.ndefers > 0 {
    } else if k.procs[k.currpid].prstate != PR_CURR {
      SwitchInLine(l, k, procs);
    } else if k.procs[k.currpid].prprio <= FirstKey(k) {
      var k1 := Enroll(k, k.currpid);
      CurrentLoose(k);
      EnrollInLine(l, k, k.currpid, -1, procs);
      EnrollCore(k, k.currpid, -1);
      EnrollFields(k, k.currpid);
      EnrolledHead(k);
      SwitchInLine(l, k1, procs);
    }
  }

  lemma CurrentLoose(k: State)
    requires Core(k, -1, -1) && k.procs[k.currpid].prstate == PR_CURR
    ensures Core(k, k.currpid, -1) && (k.conts[k.currpid] == InReceive ==> k.procs[k.currpid].prhasmsg)
  {
    hide ReadySorted, Tame, SemLaw;
    PlacedOff(k, k, k.currpid);
    assert MailOk(k.procs[k.currpid], k.conts[k.currpid]);
  }

  lemma SwitchInLine(l: seq<int>, k: State, procs: seq<Proc>)
    requires Core(k, -1, -1) && k.lists[k.readylist] != [] && |procs| == |k.procs|
    requires InLine(l, k.lists[k.readylist], procs)
    ensures InLine(l, Switch(k).lists[k.readylist], procs)
    ensures forall q :: q in l && q in Switch(k).lists[k.readylist] && Tied(procs, q, Switch(k).currpid) ==>
      Before(l, Switch(k).currpid, q)
  {
    hide ReadySorted, Tame, SemLaw, Mail, InLine, Before, Tied;
    assert PlacedOn(k, -1, k.readylist);
    var m := k.lists[k.readylist];
    TailInLine(l, m, procs);
    NoDupTail(m);
    forall q | q in l && q in m[1..] && Tied(procs, q, m[0])
      ensures Before(l, m[0], q)
    {
      HeadFirst(l, m, procs, q);
    }
  }

  /** First come, first served: no step lets a process overtake another of its priority on the ready list, a process
      made ready stands behind all of its priority, and whoever is switched in was there before all others of its
      priority. */
  lemma LineLaw(k: State, e: Event)
    requires Inv(k) && Enabled(k, e)
    ensures var k' := Step(k, e);
            var l, m := k.lists[k.readylist], k'.lists[k'.readylist];
            && InLine(l, m, k.procs)
            && (k'.currpid != k.currpid ==>
                 forall q :: q in l && q in m && Tied(k.procs, q, k'.currpid) ==> Before(l, k'.currpid, q))
  {
    hide Inv, Step, Enabled, Core, Resched, InLine, Calls, SentryLaw, Before, Tied;
    var k1, asked := Parts(k, e);
    if asked {
      CurrentApart(k);
      SamePrios(k, e, k1);
      ReschedInLine(k.lists[k.readylist], k1, k.procs);
    }
  }

  lemma SamePrios(k: State, e: Event, k1: State)
    requires Law(k, e, k1) && !e.EvCreate?
    ensures |k1.procs| == |k.procs| && forall q :: 0 <= q < |k.procs| ==> k.procs[q].prprio == k1.procs[q].prprio
  {
    forall q | 0 <= q < |k.procs| ensures k.procs[q].prprio == k1.procs[q].prprio { assert ProcLaw(k, e, k1, q); }
  }

  // Consequences for one step

  /** A receiver that waits for a message, with or without a time limit, is made ready by the first one sent to it. */
  lemma SendWakes(k: State, p: int, msg: int)
    requires Inv(k) && Enabled(k, EvSend(p, msg)) && IsPid(k, p) && k.procs[p].prstate in {PR_RECV, PR_RECTIM}
    ensures var k' := Step(k, EvSend(p, msg)); IsPid(k', p) && k'.procs[p].prstate in {PR_READY, PR_CURR}
  {
    hide Inv, Step, Enabled;
    InvShape(k);
    StepLaw(k, EvSend(p, msg));
    assert ProcLaw(k, EvSend(p, msg), Step(k, EvSend(p, msg)), p);
  }

  /** A killed process is free and on no queue, whatever its state was. */
  lemma KillFrees(k: State, p: int)
    requires Inv(k) && Enabled(k, EvKill(p)) && !BadPid(k, p) && p != NULLPROC
    ensures var k' := Step(k, EvKill(p));
            IsPid(k', p) && k'.procs[p].prstate == PR_FREE && forall q :: q in k'.lists ==> p !in k'.lists[q]
  {
    hide Inv, Step, Enabled;
    InvShape(k);
    StepLaw(k, EvKill(p));
    var k' := Step(k, EvKill(p));
    assert ProcLaw(k, EvKill(p), k', p);
    forall q | q in k'.lists
      ensures p !in k'.lists[q]
    {
      NoHome(k', p, q);
    }
  }

  lemma NoHome(k: State, p: int, q: int)
    requires Inv(k) && IsPid(k, p) && k.procs[p].prstate == PR_FREE && q in k.lists
    ensures p !in k.lists[q]
  {
    hide ReadySorted, Tame, SemLaw, Mail, Top;
    assert PlacedOn(k, -1, q);
  }

  /** Whoever is switched in has a full time slice. */
  lemma FreshSlice(k: State, e: Event)
    requires Inv(k) && Enabled(k, e) && Step(k, e).currpid != k.currpid
    ensures Step(k, e).preempt == QUANTUM
  {
    hide Inv, Step, Enabled;
    StepLaw(k, e);
  }

  // Consequences for runs

  /** The same process is current throughout the run. */
  ghost predicate KeepsRunning(k: State, es: seq<Event>)
    requires Inv(k) && Runs(k, es)
    decreases |es|
  {
    es == [] || (Step(k, es[0]).currpid == k.currpid && KeepsRunning(Step(k, es[0]), es[1..]))
  }

  /** The clock interrupts that end in the run. */
  ghost function TickEnds(es: seq<Event>): nat {
    if es == [] then 0 else (if es[0] == EvTickTail then 1 else 0) + TickEnds(es[1..])
  }

  /** Between two changes of the current process only the ends of clock interrupts shorten its slice, one tick each; a
      slice that is used up starts again in full. */
  lemma {:induction false} SliceOverRun(k: State, es: seq<Event>)
    requires Inv(k) && Runs(k, es) && KeepsRunning(k, es)
    ensures Exec(k, es).preempt == 1 + (k.preempt - 1 - TickEnds(es)) % QUANTUM
    decreases |es|
  {
    hide Inv, Step, Enabled;
    SlicePositive(k);
    if es != [] {
      StepLaw(k, es[0]);
      SliceOverRun(Step(k, es[0]), es[1..]);
    }
  }

  /** A turn: from the step that switches a process in, its slice is full, less the ticks that have ended since. */
  lemma TurnSlice(k: State, e: Event, es: seq<Event>)
    requires Inv(k) && Enabled(k, e) && Step(k, e).currpid != k.currpid
    requires Runs(Step(k, e), es) && KeepsRunning(Step(k, e), es) && TickEnds(es) < QUANTUM
    ensures Exec(Step(k, e), es).preempt == QUANTUM - TickEnds(es)
  {
    hide Inv, Step, Enabled, Runs, KeepsRunning, Exec, TickEnds;
    FreshSlice(k, e);
    SliceOverRun(Step(k, e), es);
  }

  /** What can move a process out of state s, when it is p. */
  ghost predicate Moves(s: PrState, e: Event, p: int) {
    match s
    case PR_RECV => e == EvKill(p) || (e.EvSend? && e.pid == p)
    case PR_SUSP => e == EvKill(p) || e == EvResume(p)
    case PR_FREE => e.EvCreate? && e.pid == p
    case _ => true
  }

  /** A process blocked in `receive` leaves that state only by a message sent to it or by its kill, a suspended one only
      by `resume` or by its kill, a free entry only by `create`. */
  lemma {:induction false} StaysPut(k: State, es: seq<Event>, p: int)
    requires Inv(k) && Runs(k, es) && IsPid(k, p) && p != NULLPROC
    requires k.procs[p].prstate in {PR_RECV, PR_SUSP, PR_FREE}
    requires forall i :: 0 <= i < |es| ==> !Moves(k.procs[p].prstate, es[i], p)
    ensures IsPid(Exec(k, es), p) && Exec(k, es).procs[p].prstate == k.procs[p].prstate
    decreases |es|
  {
    hide Inv, Step, Enabled;
    if es != [] {
      var k1 := Step(k, es[0]);
      StayStep(k, es[0], p);
      forall i | 0 <= i < |es[1..]| ensures !Moves(k.procs[p].prstate, es[1..][i], p) { assert es[1..][i] == es[i + 1]; }
      StaysPut(k1, es[1..], p);
    }
  }

  // One step: moved exactly by those events.
  lemma StayStep(k: State, e: Event, p: int)
    requires Inv(k) && Enabled(k, e) && IsPid(k, p) && p != NULLPROC && k.procs[p].prstate in {PR_RECV, PR_SUSP, PR_FREE}
    ensures var s, k' := k.procs[p].prstate, Step(k, e);
            IsPid(k', p) && (k'.procs[p].prstate == s <==> !Moves(s, e, p))
  {
    hide Inv, Step, Enabled;
    InvCore(k);
    InvShape(k);
    StepLaw(k, e);
    assert ProcLaw(k, e, Step(k, e), p);
    NotFirst(k, e, p);
    MailboxOf(k, p);
    SleeperSet(k, p);
    if e.EvCreate? { StepCreate(k, e.pid, e.prio); }
  }

  // Only a waiter is the first waiter of a semaphore.
  lemma NotFirst(k: State, e: Event, p: int)
    requires Inv(k) && IsPid(k, p) && k.procs[p].prstate != PR_WAIT
    ensures Shape(k) && (e.EvSignal? || e.EvSignalN?) && !BadSem(k, e.sem) ==> !FirstOf(k, e.sem, p)
  {
    hide Inv;
    InvShape(k);
    if (e.EvSignal? || e.EvSignalN?) && !BadSem(k, e.sem) {
      QueueIs(k, e.sem, p);
    }
  }

  /** First come, first served over runs: while p stays ready, nobody that is behind it, or not yet on the ready list,
      and has its priority, runs. */
  lemma {:induction false} InTurn(k: State, es: seq<Event>, p: int, q: int)
    requires Inv(k) && Runs(k, es) && StaysReady(k, es, p) && IsPid(k, q) && q != k.currpid && Tied(k.procs, p, q)
    requires q in k.lists[k.readylist] ==> Before(k.lists[k.readylist], p, q)
    requires forall i :: 0 <= i < |es| ==> !(es[i].EvCreate? && es[i].pid in {p, q})
    ensures var f := Exec(k, es);
            && f.currpid != q && f.readylist in f.lists
            && (q in f.lists[f.readylist] ==> Before(f.lists[f.readylist], p, q))
    decreases |es|
  {
    hide Inv, Step, Enabled, Before, Tied;
    InvShape(k);
    if es != [] {
      TurnStep(k, es[0], p, q);
      forall i | 0 <= i < |es[1..]| ensures !(es[1..][i].EvCreate? && es[1..][i].pid in {p, q}) {
        assert es[1..][i] == es[i + 1];
      }
      InTurn(Step(k, es[0]), es[1..], p, q);
    }
  }

  /** p is on the ready list throughout the run. */
  ghost predicate StaysReady(k: State, es: seq<Event>, p: int)
    requires Inv(k) && Runs(k, es)
    decreases |es|
  {
    && Shape(k) && p in k.lists[k.readylist] && IsPid(k, p)
    && (es == [] || StaysReady(Step(k, es[0]), es[1..], p))
  }

  lemma TurnStep(k: State, e: Event, p: int, q: int)
    requires Inv(k) && Enabled(k, e) && IsPid(k, p) && IsPid(k, q) && q != k.currpid && Tied(k.procs, p, q)
    requires p in k.lists[k.readylist] && Shape(Step(k, e)) && p in Step(k, e).lists[Step(k, e).readylist]
    requires q in k.lists[k.readylist] ==> Before(k.lists[k.readylist], p, q)
    requires !(e.EvCreate? && e.pid in {p, q})
    ensures var k' := Step(k, e);
            && IsPid(k', q) && k'.currpid != q && Tied(k'.procs, p, q)
            && (q in k'.lists[k'.readylist] ==> Before(k'.lists[k'.readylist], p, q))
  {
    hide Inv, Step, Enabled;
    LineLaw(k, e);
    StepLaw(k, e);
    assert ProcLaw(k, e, Step(k, e), p) && ProcLaw(k, e, Step(k, e), q);
  }
}
