/** What every step of the kernel does to every process, semaphore and counter, told without the step functions: which
    state each process is left in, what the fields of the tables become, and how long the time slice is. */
module StepLaws {
  import opened Types
  import opened Lists
  import opened KernelState
  import opened KernelInv
  import opened KernelRuns
  import opened Wakeups

  // States

  /** The state of a process as far as the dispatcher has no say in it: a running process counts as ready. */
  function Stand(s: PrState): PrState {
    if s == PR_CURR then PR_READY else s
  }

  ghost predicate WaitsOn(k: State, s: int, p: int)
    requires IsPid(k, p)
  {
    k.procs[p].prstate == PR_WAIT && k.procs[p].prsem == s
  }

  ghost predicate FirstOf(k: State, s: int, p: int)
    requires Shape(k) && !BadSem(k, s)
  {
    k.lists[k.sems[s].squeue] != [] && k.lists[k.sems[s].squeue][0] == p
  }

  /** The next tick wakes p: its delay is down to one tick, or to none while somebody is overdue. */
  ghost predicate Wakes(k: State, p: int)
    requires Shape(k)
  {
    p in k.lists[k.sleepq] && DueIn(k, p) == if Prompt(k) then 1 else 0
  }

  /** The state in which event e leaves process p, a running process counting as ready. */
  ghost function After(k: State, e: Event, p: int): PrState
    requires Shape(k) && IsPid(k, p)
  {
    var s, me := Stand(k.procs[p].prstate), p == k.currpid;
    match e
    case EvKill(r) => if r == p && p != NULLPROC then PR_FREE else s
    case EvCreate(r, _) => if r == p then PR_SUSP else s
    case EvSuspend(r) => if r == p && p != NULLPROC && s == PR_READY then PR_SUSP else s
    case EvResume(r) => if r == p && s == PR_SUSP then PR_READY else s
    case EvSend(r, _) => if r == p && s in {PR_RECV, PR_RECTIM} then PR_READY else s
    case EvReceive => if me && !HasMessage(k) then PR_RECV else s
    case EvRecvTime(m) => if me && m >= 0 && !HasMessage(k) then PR_RECTIM else s
    case EvSleep(d) => if me && d != 0 then PR_SLEEP else s
    case EvWait(t) => if me && UsedSem(k, t) && k.sems[t].scount <= 0 then PR_WAIT else s
    case EvSignal(t) => if UsedSem(k, t) && FirstOf(k, t, p) then PR_READY else s
    case EvSignalN(t) => if !BadSem(k, t) && FirstOf(k, t, p) then PR_READY else s
    case EvSemReset(t, c) => if c >= 0 && UsedSem(k, t) && WaitsOn(k, t, p) then PR_READY else s
    case EvSemDelete(t) => if UsedSem(k, t) && WaitsOn(k, t, p) then PR_READY else s
    case EvTick => if Wakes(k, p) then PR_READY else s
    case _ => s
  }

  ghost function PrioAfter(k: State, e: Event, p: int): int
    requires IsPid(k, p)
  {
    if e.EvCreate? && e.pid == p then e.prio else k.procs[p].prprio
  }

  ghost function SemAfter(k: State, e: Event, p: int): int
    requires Shape(k) && IsPid(k, p)
  {
    if e.EvCreate? && e.pid == p then -1
    else if e.EvWait? && p == k.currpid && UsedSem(k, e.sem) && k.sems[e.sem].scount <= 0 then e.sem
    else k.procs[p].prsem
  }

  /** The code that p has still to run when it is next switched in. */
  ghost function ContAfter(k: State, e: Event, p: int): Cont
    requires Shape(k) && IsPid(k, p)
  {
    var c, me := k.conts[p], p == k.currpid;
    match e
    case EvReceive => if me && !HasMessage(k) then InReceive else c
    case EvRecvTime(m) => if me && m >= 0 && !HasMessage(k) then InRecvTime else c
    case EvTick => if me then InTick else c
    case EvTickTail => if me then Running else c
    case EvReceiveTail => if me then Running else c
    case EvRecvTimeTail => if me then Running else c
    case EvKill(r) => if r == p && p != NULLPROC then Running else c
    case _ => c
  }

  ghost predicate ProcLaw(k: State, e: Event, k': State, p: int)
    requires Shape(k) && IsPid(k, p) && IsPid(k', p) && |k'.conts| == |k'.procs|
  {
    && Stand(k'.procs[p].prstate) == After(k, e, p)
    && k'.procs[p].prprio == PrioAfter(k, e, p) && k'.procs[p].prsem == SemAfter(k, e, p)
    && k'.conts[p] == ContAfter(k, e, p)
    && (e.EvCreate? && e.pid == p ==> !k'.procs[p].prhasmsg)
  }

  // Semaphores and counters

  ghost function CountAfter(k: State, e: Event, s: int): int
    requires Shape(k) && !BadSem(k, s)
  {
    var c, used := k.sems[s].scount, k.sems[s].sstate == S_USED;
    match e
    case EvSemCreate(t, count) => if t == s then count else c
    case EvWait(t) => if t == s && used then c - 1 else c
    case EvSignal(t) => if t == s && used then c + 1 else c
    case EvSignalN(t) => if t == s then c + 1 else c
    case EvSemReset(t, count) => if t == s && used && count >= 0 then count else c
    case EvSemDelete(t) => if t == s && used then (if c < 0 then 1 else c + 1) else c
    case EvKill(r) => if IsPid(k, r) && r != NULLPROC && WaitsOn(k, s, r) then c + 1 else c
    case _ => c
  }

  ghost predicate SentryLaw(k: State, e: Event, k': State, s: int)
    requires Shape(k) && !BadSem(k, s) && !BadSem(k', s)
  {
    && k'.sems[s].squeue == k.sems[s].squeue && k'.sems[s].scount == CountAfter(k, e, s)
    && k'.sems[s].sstate == if e.EvSemCreate? && e.sem == s then S_USED else k.sems[s].sstate
  }

  function DepthAfter(n: int, e: Event): int {
    match e
    case EvDeferStart => n + 1
    case EvDeferStop => if n > 0 then n - 1 else n
    case _ => n
  }

  /** A full time slice for whoever is switched in; otherwise only the end of a clock interrupt changes it. */
  function SliceAfter(preempt: int, e: Event, switched: bool): int {
    if switched then QUANTUM
    else if e != EvTickTail then preempt
    else if preempt <= 1 then QUANTUM
    else preempt - 1
  }

  /** The law of one step, for every process, every semaphore and the counters of the dispatcher. */
  ghost predicate Law(k: State, e: Event, k': State) {
    && Shape(k) && Shape(k') && SameTables(k, k')
    && (forall p :: 0 <= p < |k.procs| ==> ProcLaw(k, e, k', p))
    && (forall s :: 0 <= s < |k.sems| ==> SentryLaw(k, e, k', s))
    && k'.ndefers == DepthAfter(k.ndefers, e)
    && k'.preempt == SliceAfter(k.preempt, e, k'.currpid != k.currpid)
  }

  // Calls for a choice of process

  ghost predicate NewlyReady(k: State, k': State, p: int) {
    0 <= p < |k.procs| == |k'.procs| && Stand(k.procs[p].prstate) != PR_READY && Stand(k'.procs[p].prstate) == PR_READY
  }

  /** What calls for a choice of process. */
  ghost predicate Calls(k: State, e: Event, k': State) {
    || e == EvYield || e == EvSleep(0) || (e == EvTickTail && k.preempt <= 1)
    || (e == EvDeferStop && k.ndefers == 1 && k.attempt)
    || exists p :: NewlyReady(k, k', p)
  }
}
