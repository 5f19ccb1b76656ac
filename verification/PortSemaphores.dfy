/** The semaphores of the port model are the kernel's semaphores: each kernel step does to the count and to the queue
    of a semaphore what the port model says. */
module PortSemaphores {
  import opened Types
  import opened Lists
  import opened KernelState
  import opened KernelInv
  import KernelRuns
  import Semaphores
  import PS = PortState
  import Ports

  ghost function SemOf(k: State, s: int): PS.Sem
    requires Shape(k) && !BadSem(k, s)
  {
    PS.Sem(Semaphores.Count(k, s), Semaphores.Line(k, s))
  }

  /** The port model's view of what event e does to semaphore s. */
  ghost function Effect(k: State, e: Event, s: int): PS.Sem
    requires Shape(k) && UsedSem(k, s)
  {
    var sem := SemOf(k, s);
    if e == EvWait(s) then PS.SemWait(sem, k.currpid)
    else if e == EvSignal(s) || e == EvSignalN(s) then PS.SemSignal(sem)
    else if e.EvSemReset? && e.sem == s && e.count >= 0 then PS.Sem(e.count, [])
    else if e == EvSemDelete(s) then PS.SemDelete(sem)
    else if Semaphores.Withdraws(k, e, s) then PS.SemWithdraw(sem, e.pid)
    else sem
  }

  lemma KernelSemaphore(k: State, e: Event, s: int)
    requires Inv(k) && KernelRuns.Enabled(k, e) && UsedSem(k, s)
    ensures var k' := KernelRuns.Step(k, e);
            Ports.SemOk(SemOf(k, s)) && !BadSem(k', s) && SemOf(k', s) == Effect(k, e, s)
  {
    hide KernelRuns.Step, KernelRuns.Enabled, Ports.SemOk, Effect;
    hide Placed, ReadySorted, SemLaw, Mail, Separate, OneCurrent, Top;
    SemaphoreOk(k, s);
    if Semaphores.Empties(e, s) {
      EmptiesEffect(k, e, s);
    } else {
      OtherEffect(k, e, s);
    }
  }

  lemma SemaphoreOk(k: State, s: int)
    requires Inv(k) && !BadSem(k, s)
    ensures Ports.SemOk(SemOf(k, s))
  {
    hide ReadySorted, Mail, Separate, OneCurrent, Top;
    PlacedHere(k, k.sems[s].squeue);
  }

  lemma OtherEffect(k: State, e: Event, s: int)
    requires Inv(k) && KernelRuns.Enabled(k, e) && UsedSem(k, s) && !Semaphores.Empties(e, s)
    ensures var k' := KernelRuns.Step(k, e);
            !BadSem(k', s) && SemOf(k', s) == Effect(k, e, s)
  {
    hide KernelRuns.Step, KernelRuns.Enabled, Placed, ReadySorted, SemLaw, Mail, Separate, OneCurrent, Top;
    Semaphores.SemStep(k, e, s);
    SemaphoreOk(k, s);
    if Semaphores.Line(k, s) != [] {
      WithoutHead(Semaphores.Line(k, s));
    }
  }

  lemma PlacedHere(k: State, q: int)
    requires Inv(k) && q in k.lists
    ensures PlacedOn(k, -1, q)
  {
  }

  lemma ResetHere(k: State, s: int, count: int)
    requires Inv(k) && UsedSem(k, s) && count >= 0
    ensures SemQueueApart(k, s) && !BadSem(SemReset(k, s, count), s)
    ensures SemOf(SemReset(k, s, count), s) == PS.Sem(count, [])
  {
    hide Inv, Emptied;
    Semaphores.EmptiedHere(k, s, count);
  }

  lemma DeleteHere(k: State, s: int)
    requires Inv(k) && UsedSem(k, s)
    ensures SemQueueApart(k, s) && !BadSem(SemDelete(k, s), s)
    ensures SemOf(SemDelete(k, s), s) == PS.SemDelete(SemOf(k, s))
  {
    hide Inv, Emptied;
    Semaphores.EmptiedHere(k, s, (if Semaphores.Count(k, s) < 0 then 0 else Semaphores.Count(k, s)) + 1);
  }

  lemma EmptiesEffect(k: State, e: Event, s: int)
    requires Inv(k) && KernelRuns.Enabled(k, e) && UsedSem(k, s) && Semaphores.Empties(e, s)
    ensures var k' := KernelRuns.Step(k, e);
            !BadSem(k', s) && SemOf(k', s) == Effect(k, e, s)
  {
    hide Placed, ReadySorted, SemLaw, Mail, Separate, OneCurrent, Top, SemReset, SemDelete, SemQueueApart;
    if e.EvSemDelete? {
      DeleteHere(k, s);
    } else if e.count >= 0 {
      ResetHere(k, s, e.count);
    } else {
      RefusedReset(k, s, e.count);
    }
  }

  lemma RefusedReset(k: State, s: int, count: int)
    requires Inv(k) && !BadSem(k, s) && count < 0
    ensures SemQueueApart(k, s) && SemReset(k, s, count) == k
  {
    hide Emptied, Placed, ReadySorted, SemLaw, Mail, Top;
  }
}
