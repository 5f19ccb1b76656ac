/** The kernel's global state as a value, and what every system call does to it (Chapters 5 to 8 and 13).
    Interrupts are off in the kernel, so a call runs atomically up to its context switch; `conts` records, for each
    process, which code it still has to run when it is switched back in. */
module KernelState {
  import opened Types
  import opened Lists
  import opened Queue
  import opened Delta

  datatype Cont = Running | InReceive | InRecvTime | InTick

  datatype State = State(
    procs: seq<Proc>,
    sems: seq<Sentry>,
    lists: map<int, seq<int>>,
    keys: seq<int>,
    readylist: int,
    sleepq: int,
    currpid: int,
    preempt: int,
    ndefers: int,
    attempt: bool,
    conts: seq<Cont>)

  ghost predicate Shape(k: State) {
    && |k.keys| == |k.procs| && |k.conts| == |k.procs|
    && 0 <= k.currpid < |k.procs|
    && k.readylist in k.lists && k.sleepq in k.lists
    && (forall s :: 0 <= s < |k.sems| ==> k.sems[s].squeue in k.lists)
    && (forall q :: q in k.lists ==> Pids(k.lists[q], |k.procs|))
  }

  /** The tables have the same size and the same queues are allocated. */
  ghost predicate SameTables(k: State, k': State) {
    && |k'.procs| == |k.procs| && |k'.sems| == |k.sems|
    && k'.readylist == k.readylist && k'.sleepq == k.sleepq && k'.lists.Keys == k.lists.Keys
  }

  ghost predicate IsPid(k: State, p: int) {
    0 <= p < |k.procs|
  }

  ghost predicate BadPid(k: State, p: int) {
    !IsPid(k, p) || k.procs[p].prstate == PR_FREE
  }

  ghost predicate BadSem(k: State, s: int) {
    s < 0 || s >= |k.sems|
  }

  ghost function WithState(k: State, p: int, s: PrState): State
    requires IsPid(k, p)
  {
    k.(procs := k.procs[p := k.procs[p].(prstate := s)])
  }

  ghost function WithCont(k: State, p: int, c: Cont): State
    requires 0 <= p < |k.conts|
  {
    k.(conts := k.conts[p := c])
  }

  ghost function WithCount(k: State, s: int, count: int): State
    requires 0 <= s < |k.sems|
  {
    k.(sems := k.sems[s := k.sems[s].(scount := count)])
  }

  // Chapter 4 and 5

  /** p taken off queue q. */
  ghost function Unlinked(k: State, q: int, p: int): (k': State)
    requires Shape(k) && q in k.lists
    ensures Shape(k') && SameTables(k, k')
  {
    PidsWithout(k.lists[q], |k.procs|, p);
    k.(lists := k.lists[q := Without(k.lists[q], p)])
  }

  ghost function FirstKey(k: State): int
    requires Shape(k)
  {
    var l := k.lists[k.readylist];
    if l == [] then MINKEY else k.keys[l[0]]
  }

  /** Marks p ready and inserts it behind every ready process of the same or a higher priority. */
  ghost function Enroll(k: State, p: int): (k': State)
    requires Shape(k) && IsPid(k, p)
    ensures Shape(k') && SameTables(k, k')
  {
    var l, prio := k.lists[k.readylist], k.procs[p].prprio;
    var i := PrioIndex(l, k.keys, prio);
    PidsInsert(l, |k.procs|, i, p);
    WithState(k, p, PR_READY).(lists := k.lists[k.readylist := InsertAt(l, i, p)], keys := k.keys[p := prio])
  }

  /** The context switch: the first ready process becomes the current one. */
  ghost function Switch(k: State): (k': State)
    requires Shape(k) && k.lists[k.readylist] != []
    ensures Shape(k') && SameTables(k, k')
  {
    var l := k.lists[k.readylist];
    WithState(k, l[0], PR_CURR).(lists := k.lists[k.readylist := l[1..]], currpid := l[0], preempt := QUANTUM)
  }

  ghost predicate CanResched(k: State)
    requires Shape(k)
  {
    k.ndefers > 0 || k.procs[k.currpid].prstate == PR_CURR || k.lists[k.readylist] != []
  }

  ghost function Resched(k: State): (k': State)
    requires Shape(k) && CanResched(k)
    ensures Shape(k') && SameTables(k, k')
  {
    if k.ndefers > 0 then k.(attempt := true)
    else if k.procs[k.currpid].prstate != PR_CURR then Switch(k)
    else if k.procs[k.currpid].prprio > FirstKey(k) then k
    else Switch(Enroll(k, k.currpid))
  }

  ghost function Ready(k: State, p: int): (k': State)
    requires Shape(k) && IsPid(k, p)
    ensures Shape(k') && SameTables(k, k')
  {
    Resched(Enroll(k, p))
  }

  ghost function DeferStart(k: State): State {
    k.(ndefers := k.ndefers + 1, attempt := if k.ndefers == 0 then false else k.attempt)
  }

  ghost predicate CanStop(k: State)
    requires Shape(k)
  {
    k.ndefers == 1 && k.attempt ==> CanResched(k.(ndefers := 0))
  }

  ghost function DeferStop(k: State): (k': State)
    requires Shape(k) && CanStop(k)
    ensures Shape(k') && SameTables(k, k')
  {
    if k.ndefers <= 0 then k
    else
      var k1 := k.(ndefers := k.ndefers - 1);
      if k1.ndefers == 0 && k1.attempt then Resched(k1) else k1
  }

  /** Unlinks the first process of queue q and makes it ready. */
  ghost function PopReady(k: State, q: int): (k': State)
    requires Shape(k) && q in k.lists && k.lists[q] != []
    ensures Shape(k') && SameTables(k, k')
  {
    var l := k.lists[q];
    Ready(k.(lists := k.lists[q := l[1..]]), l[0])
  }

  /** Under deferral: makes the first n processes of queue q ready, in queue order. */
  ghost function Release(k: State, q: int, n: nat): (k': State)
    requires Shape(k) && q in k.lists && q != k.readylist && n <= |k.lists[q]| && k.ndefers > 0
    ensures Shape(k') && SameTables(k, k') && k'.lists[q] == k.lists[q][n..]
    ensures k' == k.(procs := k'.procs, lists := k'.lists, keys := k'.keys, attempt := k'.attempt)
  {
    if n == 0 then k else PopReady(Release(k, q, n - 1), q)
  }

  /** A caller may block only outside deferral and while some other process (the null process) is ready. */
  ghost predicate CanBlock(k: State)
    requires Shape(k)
  {
    k.ndefers == 0 && k.lists[k.readylist] != []
  }

  // Chapter 7

  ghost predicate UsedSem(k: State, s: int) {
    !BadSem(k, s) && k.sems[s].sstate == S_USED
  }

  /** The current process on the queue of s, before the context switch. */
  ghost function Blocked(k: State, s: int): (k': State)
    requires Shape(k) && !BadSem(k, s)
    ensures Shape(k') && SameTables(k, k')
  {
    var q, me := k.sems[s].squeue, k.procs[k.currpid];
    WithCount(k, s, k.sems[s].scount - 1)
    .(procs := k.procs[k.currpid := me.(prstate := PR_WAIT, prsem := s)],
      lists := k.lists[q := k.lists[q] + [k.currpid]])
  }

  ghost function Wait(k: State, s: int): (k': State)
    requires Shape(k) && (UsedSem(k, s) && k.sems[s].scount <= 0 ==> CanBlock(k))
    ensures Shape(k') && SameTables(k, k')
  {
    if !UsedSem(k, s) then k
    else if k.sems[s].scount - 1 < 0 then Resched(Blocked(k, s))
    else WithCount(k, s, k.sems[s].scount - 1)
  }

  /** One increment of a semaphore: the body of `signal` and of the loop of `signaln`. */
  ghost function SemUp(k: State, s: int): (k': State)
    requires Shape(k) && !BadSem(k, s)
    requires k.sems[s].scount < 0 ==> k.lists[k.sems[s].squeue] != []
    ensures Shape(k') && SameTables(k, k')
  {
    var k1 := WithCount(k, s, k.sems[s].scount + 1);
    if k.sems[s].scount < 0 then PopReady(k1, k.sems[s].squeue) else k1
  }

  ghost function Signal(k: State, s: int): (k': State)
    requires Shape(k)
    requires !BadSem(k, s) && k.sems[s].scount < 0 ==> k.lists[k.sems[s].squeue] != []
    ensures Shape(k') && SameTables(k, k')
  {
    if !UsedSem(k, s) then k else SemUp(k, s)
  }

  /** `semcreate` on the free entry that `newsem` found: the entry is used from then on. */
  ghost function SemCreate(k: State, s: int, count: int): (k': State)
    requires Shape(k) && !BadSem(k, s)
    ensures Shape(k') && SameTables(k, k')
  {
    k.(sems := k.sems[s := k.sems[s].(sstate := S_USED, scount := count)])
  }

  ghost function ReleaseAll(k: State, q: int, n: nat): (k': State)
    requires Shape(k) && q in k.lists && q != k.readylist && n <= |k.lists[q]| && k.ndefers >= 0
    ensures Shape(k') && SameTables(k, k')
  {
    Release(DeferStart(k), q, n)
  }

  ghost predicate SemQueueApart(k: State, s: int) {
    !BadSem(k, s) ==> k.sems[s].squeue != k.readylist && k.ndefers >= 0
  }

  /** Under deferral: every waiter of s made ready, then the count set. */
  ghost function Emptied(k: State, s: int, count: int): (k': State)
    requires Shape(k) && !BadSem(k, s) && SemQueueApart(k, s)
    ensures Shape(k') && SameTables(k, k')
  {
    var q := k.sems[s].squeue;
    DeferStop(WithCount(ReleaseAll(k, q, |k.lists[q]|), s, count))
  }

  ghost function SemReset(k: State, s: int, count: int): (k': State)
    requires Shape(k) && SemQueueApart(k, s)
    ensures Shape(k') && SameTables(k, k')
  {
    if count < 0 || !UsedSem(k, s) then k else Emptied(k, s, count)
  }

  /** `semdelete` releases the waiters by count; its loop test leaves one increment too many behind. */
  ghost function SemDelete(k: State, s: int): (k': State)
    requires Shape(k) && SemQueueApart(k, s)
    ensures Shape(k') && SameTables(k, k')
  {
    if !UsedSem(k, s) then k
    else Emptied(k, s, (if k.sems[s].scount < 0 then 0 else k.sems[s].scount) + 1)
  }

  // Chapter 13

  /** Puts the current process on the sleep queue in the given state, to be woken after `delay` ticks. */
  ghost function GoToSleep(k: State, delay: int, s: PrState): (k': State)
    requires Shape(k)
    ensures Shape(k') && SameTables(k, k')
  {
    var l, p := k.lists[k.sleepq], k.currpid;
    var i := DeltaIndex(l, k.keys, delay);
    PidsInsert(l, |k.procs|, i, p);
    WithState(k, p, s).(lists := k.lists[k.sleepq := InsertAt(l, i, p)], keys := DeltaKeys(l, k.keys, p, delay))
  }

  ghost function SleepMs(k: State, delay: int): (k': State)
    requires Shape(k) && (delay == 0 ==> CanResched(k)) && (delay != 0 ==> CanBlock(k) && k.readylist != k.sleepq)
    ensures Shape(k') && SameTables(k, k')
  {
    if delay == 0 then Resched(k) else Resched(GoToSleep(k, delay, PR_SLEEP))
  }

  ghost function Unsleep(k: State, p: int): (k': State)
    requires Shape(k)
    ensures Shape(k') && SameTables(k, k')
  {
    var l := k.lists[k.sleepq];
    PidsWithout(l, |k.procs|, p);
    k.(lists := k.lists[k.sleepq := Without(l, p)], keys := GiveBack(l, k.keys, p))
  }

  ghost function Wakeup(k: State): (k': State)
    requires Shape(k) && k.readylist != k.sleepq && k.ndefers >= 0
    ensures Shape(k') && SameTables(k, k')
  {
    DeferStop(ReleaseAll(k, k.sleepq, Expired(k.lists[k.sleepq], k.keys)))
  }

  /** One tick off the delta of the first sleeper. */
  ghost function HeadDown(k: State): (k': State)
    requires Shape(k) && k.lists[k.sleepq] != []
    ensures Shape(k') && SameTables(k, k')
  {
    var p := k.lists[k.sleepq][0];
    k.(keys := k.keys[p := k.keys[p] - 1])
  }

  /** A clock interrupt, up to the context switch it may cause; the rest is `TickTail`. */
  ghost function Tick(k: State): (k': State)
    requires Shape(k) && k.readylist != k.sleepq && k.ndefers >= 0
    ensures Shape(k') && SameTables(k, k')
  {
    var k1 := WithCont(k, k.currpid, InTick);
    if k.lists[k.sleepq] == [] then k1
    else
      var k2 := HeadDown(k1);
      if k2.keys[k.lists[k.sleepq][0]] <= 0 then Wakeup(k2) else k2
  }

  ghost function TickTail(k: State): (k': State)
    requires Shape(k) && CanResched(k)
    ensures Shape(k') && SameTables(k, k')
  {
    var k1 := WithCont(k, k.currpid, Running);
    if k.preempt - 1 <= 0 then Resched(k1.(preempt := QUANTUM)) else k1.(preempt := k.preempt - 1)
  }

  // Chapter 8 and Chapter13/recvtime.c

  ghost function Delivered(k: State, p: int, msg: int): State
    requires IsPid(k, p)
  {
    k.(procs := k.procs[p := k.procs[p].(prmsg := msg, prhasmsg := true)])
  }

  ghost function Send(k: State, p: int, msg: int): (k': State)
    requires Shape(k)
    ensures Shape(k') && SameTables(k, k')
  {
    if BadPid(k, p) || k.procs[p].prhasmsg then k
    else
      var k1 := Delivered(k, p, msg);
      match k.procs[p].prstate
      case PR_RECV => Ready(k1, p)
      case PR_RECTIM => Ready(Unsleep(k1, p), p)
      case _ => k1
  }

  /** Empties the mailbox of the current process. */
  ghost function TakeMessage(k: State): (k': State)
    requires Shape(k)
    ensures Shape(k') && SameTables(k, k')
  {
    k.(procs := k.procs[k.currpid := k.procs[k.currpid].(prhasmsg := false)])
  }

  ghost predicate HasMessage(k: State)
    requires Shape(k)
  {
    k.procs[k.currpid].prhasmsg
  }

  ghost function Receive(k: State): (k': State)
    requires Shape(k) && (!HasMessage(k) ==> CanBlock(k))
    ensures Shape(k') && SameTables(k, k')
  {
    if HasMessage(k) then TakeMessage(k)
    else Resched(WithCont(WithState(k, k.currpid, PR_RECV), k.currpid, InReceive))
  }

  ghost function ReceiveTail(k: State): (k': State)
    requires Shape(k)
    ensures Shape(k') && SameTables(k, k')
  {
    TakeMessage(WithCont(k, k.currpid, Running))
  }

  ghost function RecvTime(k: State, maxwait: int): (k': State)
    requires Shape(k) && k.readylist != k.sleepq && (maxwait >= 0 && !HasMessage(k) ==> CanBlock(k))
    ensures Shape(k') && SameTables(k, k')
  {
    if maxwait < 0 then k
    else if HasMessage(k) then TakeMessage(k)
    else Resched(WithCont(GoToSleep(k, maxwait, PR_RECTIM), k.currpid, InRecvTime))
  }

  // Chapter 6

  ghost function Suspend(k: State, p: int): (k': State)
    requires Shape(k)
    requires p == k.currpid && p != NULLPROC && k.procs[p].prstate == PR_CURR ==> CanBlock(k)
    requires IsPid(k, p) && k.procs[p].prstate == PR_CURR ==> p == k.currpid
    ensures Shape(k') && SameTables(k, k')
  {
    if BadPid(k, p) || p == NULLPROC then k
    else match k.procs[p].prstate
      case PR_READY =>
        WithState(Unlinked(k, k.readylist, p), p, PR_SUSP)
      case PR_CURR => Resched(WithState(k, p, PR_SUSP))
      case _ => k
  }

  ghost function Resume(k: State, p: int): (k': State)
    requires Shape(k)
    ensures Shape(k') && SameTables(k, k')
  {
    if BadPid(k, p) || k.procs[p].prstate != PR_SUSP then k else Ready(k, p)
  }

  ghost function Dead(k: State, p: int): (k': State)
    requires Shape(k) && IsPid(k, p)
    ensures Shape(k') && SameTables(k, k')
  {
    WithCont(WithState(k, p, PR_FREE), p, Running)
  }

  /** The state switch of `kill`: takes the process off whatever queue holds it. */
  ghost function Kill(k: State, p: int): (k': State)
    requires Shape(k)
    requires IsPid(k, p) && p != NULLPROC && k.procs[p].prstate == PR_CURR ==> p == k.currpid && CanBlock(k)
    requires IsPid(k, p) && k.procs[p].prstate == PR_WAIT ==> !BadSem(k, k.procs[p].prsem)
    ensures Shape(k') && SameTables(k, k')
  {
    if BadPid(k, p) || p == NULLPROC then k
    else
      var dead := Dead(k, p);
      match k.procs[p].prstate
      case PR_CURR => Resched(dead)
      case PR_SLEEP => Unsleep(dead, p)
      case PR_RECTIM => Unsleep(dead, p)
      case PR_WAIT =>
        var s := k.procs[p].prsem;
        Unlinked(WithCount(dead, s, k.sems[s].scount + 1), k.sems[s].squeue, p)
      case PR_READY =>
        Unlinked(dead, k.readylist, p)
      case _ => dead
  }

  /** The process-table part of `create`: a free entry becomes a suspended process with an empty mailbox. */
  ghost function Create(k: State, p: int, prio: Prio): (k': State)
    requires Shape(k) && IsPid(k, p)
    ensures Shape(k') && SameTables(k, k')
  {
    k.(procs := k.procs[p := k.procs[p].(prstate := PR_SUSP, prprio := prio, prsem := -1, prhasmsg := false)])
  }

  datatype Event =
    | EvYield | EvDeferStart | EvDeferStop
    | EvSemCreate(sem: int, count: int) | EvWait(sem: int) | EvSignal(sem: int) | EvSignalN(sem: int)
    | EvSemReset(sem: int, count: int) | EvSemDelete(sem: int)
    | EvTick | EvTickTail | EvSleep(delay: int)
    | EvSend(pid: int, msg: int) | EvReceive | EvReceiveTail | EvRecvClr | EvRecvTime(maxwait: int) | EvRecvTimeTail
    | EvSuspend(pid: int) | EvResume(pid: int) | EvKill(pid: int) | EvCreate(pid: int, prio: Prio)
}
