/** The clock and the dispatcher together (Chapters 5 and 13): processes tied at the top run in turn, each for exactly
    QUANTUM ticks. */
module TimeSlices {
  import opened Types
  import opened KernelState
  import opened KernelInv
  import opened KernelRuns
  import opened RoundRobin

  /** Nobody sleeps, nothing is deferred, and the current process is not inside a call. */
  ghost predicate Quiet(k: State) {
    Inv(k) && k.ndefers == 0 && k.lists[k.sleepq] == [] && k.conts[k.currpid] == Running
  }

  /** A whole clock interrupt, from its beginning to its end. */
  ghost function Ticked(k: State): State
    requires Quiet(k)
  {
    TickTail(Tick(k))
  }

  /** n clock interrupts, as long as the state stays quiet. */
  ghost function AfterTicks(k: State, n: nat): State {
    if n == 0 then k
    else
      var m := AfterTicks(k, n - 1);
      if Quiet(m) then Ticked(m) else m
  }

  lemma TickedIs(k: State)
    requires Quiet(k)
    ensures CanResched(k.(preempt := QUANTUM))
    ensures Ticked(k) == if k.preempt > 1 then k.(preempt := k.preempt - 1) else Resched(k.(preempt := QUANTUM))
  {
    hide Placed, ReadySorted, SemLaw, Mail, Top;
    var k1 := Tick(k);
    assert k1 == WithCont(k, k.currpid, InTick);
    assert k1.conts[k.currpid := Running] == k.conts;
    assert WithCont(k1, k.currpid, Running) == k;
  }

  lemma ShorterSlice(k: State)
    requires Quiet(k) && k.preempt > 1
    ensures Quiet(k.(preempt := k.preempt - 1))
  {
    hide Placed, ReadySorted, SemLaw, Mail, Top;
    assert 1 <= k.preempt - 1 <= QUANTUM;
    hide Inv;
    InvParts(k);
    SliceInv(k, k.preempt - 1);
  }

  lemma InvParts(k: State)
    requires Inv(k)
    ensures Shape(k) && 1 <= k.preempt <= QUANTUM
  {
    hide Placed, ReadySorted, SemLaw, Mail, Top;
  }

  /** Before its time slice is over, ticks do nothing to a running process but shorten the slice. */
  lemma {:induction false} SliceLasts(k: State, n: nat)
    requires Quiet(k) && n < k.preempt
    ensures AfterTicks(k, n) == k.(preempt := k.preempt - n) && Quiet(AfterTicks(k, n))
  {
    hide Quiet, Ticked;
    if n > 0 {
      SliceLasts(k, n - 1);
      TickedIs(AfterTicks(k, n - 1));
      ShorterSlice(AfterTicks(k, n - 1));
    }
  }

  /** At the last tick of the slice the dispatcher chooses anew, with a full slice for the winner. */
  lemma SliceEnds(k: State)
    requires Quiet(k)
    ensures k.preempt >= 1 && CanResched(k.(preempt := QUANTUM))
    ensures AfterTicks(k, k.preempt) == Resched(k.(preempt := QUANTUM))
  {
    hide Ticked, Resched, Inv;
    InvParts(k);
    SliceLasts(k, k.preempt - 1);
    TickedIs(AfterTicks(k, k.preempt - 1));
  }

  lemma ReschedKeeps(k: State)
    requires Inv(k) && k.preempt == QUANTUM
    ensures CanResched(k)
    ensures var k' := Resched(k);
            k'.conts == k.conts && k'.lists[k'.sleepq] == k.lists[k.sleepq] && k'.preempt == QUANTUM
  {
    hide Placed, ReadySorted, SemLaw, Mail, Top;
  }

  lemma {:induction false} SpinKeeps(k: State, i: nat)
    requires Inv(k) && k.preempt == QUANTUM
    ensures var s := Spin(k, i);
            s.conts == k.conts && s.lists[s.sleepq] == k.lists[k.sleepq] && s.preempt == QUANTUM
  {
    hide Inv, Resched;
    if i > 0 {
      SpinKeeps(k, i - 1);
      ReschedKeeps(Spin(k, i - 1));
    }
  }

  /** Turns. With n processes tied at the top and only the clock running, the i-th turn belongs to the i-th process of
      the ring, lasts exactly QUANTUM ticks, and is followed by the next turn. */
  lemma TurnsOfOneQuantum(k: State, ring: seq<int>, rest: seq<int>, i: nat)
    requires Quiet(k) && k.preempt == QUANTUM && Ring(k, ring, rest) && i <= |ring|
    requires forall j :: 0 <= j < |ring| ==> 0 <= ring[j] < |k.conts| && k.conts[ring[j]] == Running
    ensures var s := Spin(k, i);
            && s.currpid == ring[i % |ring|]
            && (forall n :: 0 <= n < QUANTUM ==> AfterTicks(s, n).currpid == s.currpid)
            && AfterTicks(s, QUANTUM) == Spin(k, i + 1)
  {
    hide Inv, Resched, Ring;
    RoundRobinOrder(k, ring, rest, i);
    SpinKeeps(k, i);
    RingHead(k, ring, rest);
    var s := Spin(k, i);
    assert Quiet(s);
    hide Quiet;
    forall n | 0 <= n < QUANTUM
      ensures AfterTicks(s, n).currpid == s.currpid
    {
      SliceLasts(s, n);
    }
    SliceEnds(s);
    assert s.(preempt := QUANTUM) == s;
    NextSpin(k, i);
  }

  lemma NextSpin(k: State, i: nat)
    requires Inv(k)
    ensures CanResched(Spin(k, i)) && Spin(k, i + 1) == Resched(Spin(k, i))
  {
    hide Placed, ReadySorted, SemLaw, Mail, Top, Resched;
    ReschedInv(Spin(k, i));
  }
}
