/** What each step of the port system (Chapter 11) does to the ports and to the processes inside them, and what a reset
    and a deletion have done once they have run to their end. */
module PortLaws {
  import opened Types
  import opened Lists
  import opened PortState
  import opened Ports
  import opened PortRuns

  // Steps

  ghost predicate Creates(w: World, e: Event, j: int)
    requires Shape(w)
  {
    e.Create? && e.count >= 0 && j == FreePort(w.ports, w.nextid, |w.ports|) && j < |w.ports|
  }

  predicate ClearBegins(w: World, e: Event, j: int) {
    (e == Reset(j) || e == Delete(j)) && Usable(w, j)
  }

  predicate SenderBlocks(w: World, e: Event, j: int) {
    e.Send? && e.port == j && Usable(w, j) && w.ports[j].ssem.count <= 0
  }

  predicate ReceiverBlocks(w: World, e: Event, j: int) {
    e.Recv? && e.port == j && Usable(w, j) && w.ports[j].rsem.count <= 0
  }

  /** Where process p is after a step: inside a call with the message it was asked to send, or outside. */
  function PcAfter(w: World, e: Event, p: int): Pc
    requires 0 <= p < |w.pcs|
  {
    if e.Send? && e.pid == p && SenderBlocks(w, e, e.port) then Sending(e.port, w.ports[e.port].epoch, e.msg)
    else if e.Recv? && e.pid == p && ReceiverBlocks(w, e, e.port) then Receiving(e.port, w.ports[e.port].epoch)
    else if (e.SendTail? || e.RecvTail? || e.Kill?) && e.pid == p then Idle
    else w.pcs[p]
  }

  /** The senders waiting on port j after a step: a caller that must wait goes to the end, a killed one leaves, and a
      message taken out of the buffer releases the first. */
  ghost function SendersAfter(w: World, e: Event, j: int): seq<int>
    requires Shape(w) && Enabled(w, e) && HeadSafe(w, e) && !BadPort(w, j)
  {
    var l := w.ports[j].ssem.waiters;
    if SenderBlocks(w, e, j) then l + [e.pid]
    else if e.Kill? then Without(l, e.pid)
    else if Got(w, e, j) != [] && l != [] then l[1..]
    else l
  }

  /** The receivers waiting on port j after a step: a message put into the buffer releases the first. */
  ghost function ReceiversAfter(w: World, e: Event, j: int): seq<int>
    requires Shape(w) && Enabled(w, e) && !BadPort(w, j)
  {
    var l := w.ports[j].rsem.waiters;
    if ReceiverBlocks(w, e, j) then l + [e.pid]
    else if e.Kill? then Without(l, e.pid)
    else if Put(w, e, j) != [] && l != [] then l[1..]
    else l
  }

  /** The entry of port j after a step that is not part of a clear under way. */
  ghost predicate PortLaw(w: World, e: Event, pt': Port, j: int)
    requires Shape(w) && Enabled(w, e) && HeadSafe(w, e) && !BadPort(w, j)
  {
    var pt := w.ports[j];
    if Creates(w, e, j) then
      pt' == Port(PT_ALLOC, pt.epoch + 1, e.count, [], Sem(e.count, []), Sem(0, []), NoClear)
    else
      && pt'.state == (if ClearBegins(w, e, j) then PT_LIMBO else pt.state)
      && pt'.epoch == pt.epoch + (if ClearBegins(w, e, j) then 1 else 0)
      && pt'.maxcnt == pt.maxcnt
      && pt'.ssem.waiters == SendersAfter(w, e, j)
      && pt'.rsem.waiters == ReceiversAfter(w, e, j)
  }

  ghost predicate Law(w: World, e: Event, w': World)
    requires Shape(w) && Enabled(w, e) && HeadSafe(w, e)
  {
    && |w'.ports| == |w.ports| && |w'.pcs| == |w.pcs|
    && (forall p :: 0 <= p < |w.pcs| ==> w'.pcs[p] == PcAfter(w, e, p))
    && (forall j :: 0 <= j < |w.ports| && e != Clearing(j) ==> PortLaw(w, e, w'.ports[j], j))
    && (e.Clearing? && w.ports[e.port].state != PT_LIMBO ==> w' == w)
    && w'.nextid ==
       if e.Create? && e.count >= 0 && FreePort(w.ports, w.nextid, |w.ports|) < |w.ports| then
         Round(FreePort(w.ports, w.nextid, |w.ports|), |w.ports|)
       else if e.Clearing? && w.ports[e.port].state == PT_LIMBO && w'.ports[e.port].state == PT_FREE then e.port
       else w.nextid
  }

  lemma PcsLaw(w: World, e: Event, p: int)
    requires Shape(w) && Enabled(w, e) && 0 <= p < |w.pcs|
    ensures |Step(w, e).pcs| == |w.pcs| && Step(w, e).pcs[p] == PcAfter(w, e, p)
  {
    hide Revalidates, Recent, SemWait, SemSignal, SemWithdraw, SemDelete, FreePort, InFlight, Panics;
  }

  lemma SendPort(w: World, lost: seq<Lost>, e: Event, j: int)
    requires Inv(w, lost) && Enabled(w, e) && HeadSafe(w, e) && !BadPort(w, j) && e.Send?
    ensures !BadPort(Step(w, e), j) && PortLaw(w, e, Step(w, e).ports[j], j)
  {
    assert PortOk(w.pcs, j, w.ports[j], lost[j]);
    hide PortOk, Recent, InFlight, FlightS, FlightR, WaitersOk, Begun, ClearOk;
  }

  lemma SendTailPort(w: World, lost: seq<Lost>, e: Event, j: int)
    requires Inv(w, lost) && Enabled(w, e) && HeadSafe(w, e) && !BadPort(w, j) && e.SendTail?
    ensures !BadPort(Step(w, e), j) && PortLaw(w, e, Step(w, e).ports[j], j)
  {
    assert PortOk(w.pcs, j, w.ports[j], lost[j]);
    hide PortOk, Recent, InFlight, FlightS, FlightR, WaitersOk, Begun, ClearOk, Revalidates;
  }

  lemma RecvPort(w: World, lost: seq<Lost>, e: Event, j: int)
    requires Inv(w, lost) && Enabled(w, e) && HeadSafe(w, e) && !BadPort(w, j) && e.Recv?
    ensures !BadPort(Step(w, e), j) && PortLaw(w, e, Step(w, e).ports[j], j)
  {
    assert PortOk(w.pcs, j, w.ports[j], lost[j]);
    hide PortOk, Recent, InFlight, FlightS, FlightR, WaitersOk, Begun, ClearOk;
  }

  lemma RecvTailPort(w: World, lost: seq<Lost>, e: Event, j: int)
    requires Inv(w, lost) && Enabled(w, e) && HeadSafe(w, e) && !BadPort(w, j) && e.RecvTail?
    ensures !BadPort(Step(w, e), j) && PortLaw(w, e, Step(w, e).ports[j], j)
  {
    assert PortOk(w.pcs, j, w.ports[j], lost[j]);
    hide PortOk, Recent, InFlight, FlightS, FlightR, WaitersOk, Begun, ClearOk, Revalidates;
  }

  lemma KillPort(w: World, lost: seq<Lost>, p: int, j: int)
    requires Inv(w, lost) && Enabled(w, Kill(p)) && !BadPort(w, j)
    ensures !BadPort(Step(w, Kill(p)), j) && PortLaw(w, Kill(p), Step(w, Kill(p)).ports[j], j)
  {
    assert PortOk(w.pcs, j, w.ports[j], lost[j]);
    assert p !in w.ports[j].ssem.waiters ==> Without(w.ports[j].ssem.waiters, p) == w.ports[j].ssem.waiters;
    assert p !in w.ports[j].rsem.waiters ==> Without(w.ports[j].rsem.waiters, p) == w.ports[j].rsem.waiters;
    hide PortOk, InFlight, Begun, ClearOk, SemOk, Without;
  }

  lemma OtherPort(w: World, lost: seq<Lost>, e: Event, j: int)
    requires Inv(w, lost) && Enabled(w, e) && HeadSafe(w, e) && !BadPort(w, j) && e != Clearing(j)
    requires e.Create? || e.Delete? || e.Reset? || e.Clearing?
    ensures !BadPort(Step(w, e), j) && PortLaw(w, e, Step(w, e).ports[j], j)
  {
    hide PortOk, FreePort, SemDelete, Nodes;
  }

  /** The law of every step, in every state that satisfies the invariant. */
  lemma StepLaw(w: World, lost: seq<Lost>, e: Event)
    requires Inv(w, lost) && Enabled(w, e)
    ensures HeadSafe(w, e) && Law(w, e, Step(w, e))
  {
    hide PortLaw, PcAfter, Step, Enabled, HeadSafe, PortOk;
    StepKeeps(w, lost, e);
    StepSize(w, e);
    var w' := Step(w, e);
    forall p | 0 <= p < |w.pcs|
      ensures w'.pcs[p] == PcAfter(w, e, p)
    {
      PcsLaw(w, e, p);
    }
    forall j | 0 <= j < |w.ports| && e != Clearing(j)
      ensures PortLaw(w, e, w'.ports[j], j)
    {
      match e
      case Send(_, _, _) => SendPort(w, lost, e, j);
      case SendTail(_) => SendTailPort(w, lost, e, j);
      case Recv(_, _) => RecvPort(w, lost, e, j);
      case RecvTail(_) => RecvTailPort(w, lost, e, j);
      case Kill(p) => KillPort(w, lost, p, j);
      case Create(_) => OtherPort(w, lost, e, j);
      case Delete(_) => OtherPort(w, lost, e, j);
      case Reset(_) => OtherPort(w, lost, e, j);
      case Clearing(_) => OtherPort(w, lost, e, j);
    }
    NextLaw(w, lost, e);
  }

  lemma NextLaw(w: World, lost: seq<Lost>, e: Event)
    requires Inv(w, lost) && Enabled(w, e)
    ensures var w' := Step(w, e);
            && (e.Clearing? && w.ports[e.port].state != PT_LIMBO ==> w' == w)
            && (e.Clearing? ==> e.port < |w'.ports|)
            && w'.nextid ==
               if e.Create? && e.count >= 0 && FreePort(w.ports, w.nextid, |w.ports|) < |w.ports| then
                 Round(FreePort(w.ports, w.nextid, |w.ports|), |w.ports|)
               else if e.Clearing? && w.ports[e.port].state == PT_LIMBO && w'.ports[e.port].state == PT_FREE then e.port
               else w.nextid
  {
    if e.Clearing? { assert PortOk(w.pcs, e.port, w.ports[e.port], lost[e.port]); }
    hide PortOk, FreePort, SemDelete, Nodes, SemWait, SemSignal, SemWithdraw, Recent, Revalidates;
  }

  // Clears

  /** Port i is in limbo before every step of the run, and no longer after the last one. */
  ghost predicate LimboThrough(w: World, es: seq<Event>, i: int)
    requires Runs(w, es) && !BadPort(w, i)
    decreases |es|
  {
    if es == [] then w.ports[i].state != PT_LIMBO
    else
      w.ports[i].state == PT_LIMBO && !BadPort(Step(w, es[0]), i) && LimboThrough(Step(w, es[0]), es[1..], i)
  }

  /** What a clear of port i is about: the state that it will leave, and what it leaves alone. */
  ghost predicate Towards(pt: Port, next: PtState, epoch: nat, maxcnt: int) {
    pt.state == PT_LIMBO && pt.clear != NoClear && pt.clear.next == next && pt.epoch == epoch && pt.maxcnt == maxcnt
  }

  ghost predicate ClearedTo(pt: Port, next: PtState, epoch: nat, maxcnt: int) {
    && pt == Port(next, epoch, maxcnt, [], pt.ssem, pt.rsem, NoClear)
    && pt.ssem.waiters == [] && pt.rsem.waiters == []
    && (next == PT_ALLOC ==> pt.ssem == Sem(maxcnt, []) && pt.rsem == Sem(0, []))
  }

  lemma LimboStep(w: World, lost: seq<Lost>, e: Event, i: int, next: PtState)
    requires Inv(w, lost) && Enabled(w, e) && !BadPort(w, i)
    requires Towards(w.ports[i], next, w.ports[i].epoch, w.ports[i].maxcnt)
    ensures !BadPort(Step(w, e), i)
    ensures var pt, w' := w.ports[i], Step(w, e);
            || Towards(w'.ports[i], next, pt.epoch, pt.maxcnt)
            || (ClearedTo(w'.ports[i], next, pt.epoch, pt.maxcnt) && (next == PT_FREE ==> w'.nextid == i))
  {
    assert PortOk(w.pcs, i, w.ports[i], lost[i]);
    if e != Clearing(i) { LimboAlone(w, e, i); }
    hide PortOk, Begun, WaitersOk, SemOk, Appended, HeadTaken, Nodes;
  }

  lemma {:induction false} LimboRun(w: World, lost: seq<Lost>, es: seq<Event>, i: int, next: PtState)
    requires Inv(w, lost) && Runs(w, es) && !BadPort(w, i) && LimboThrough(w, es, i)
    requires Towards(w.ports[i], next, w.ports[i].epoch, w.ports[i].maxcnt) && next in {PT_FREE, PT_ALLOC}
    ensures !BadPort(Exec(w, es), i) && ClearedTo(Exec(w, es).ports[i], next, w.ports[i].epoch, w.ports[i].maxcnt)
    ensures next == PT_FREE ==> Exec(w, es).nextid == i
    decreases |es|
  {
    hide Inv, Enabled, Step;
    StepKeeps(w, lost, es[0]);
    LimboStep(w, lost, es[0], i, next);
    if es[1..] != [] {
      LimboRun(Step(w, es[0]), LostAfter(w, lost, es[0]), es[1..], i, next);
    }
  }

  /** A reset that has run to its end, whatever else happened meanwhile: the port is in use again under the next
      sequence number, its buffer is empty, and its semaphores are those of a new port of the same bound. */
  lemma ResetComesBack(w: World, lost: seq<Lost>, i: int, es: seq<Event>)
    requires Inv(w, lost) && Usable(w, i) && Runs(Step(w, Reset(i)), es)
    requires !BadPort(Step(w, Reset(i)), i) && LimboThrough(Step(w, Reset(i)), es, i)
    ensures var pt, w' := w.ports[i], Exec(Step(w, Reset(i)), es);
            && !BadPort(w', i)
            && w'.ports[i] == Port(PT_ALLOC, pt.epoch + 1, pt.maxcnt, [], Sem(pt.maxcnt, []), Sem(0, []), NoClear)
  {
    hide Inv, HeadSafe;
    StepKeeps(w, lost, Reset(i));
    LimboRun(Step(w, Reset(i)), LostAfter(w, lost, Reset(i)), es, i, PT_ALLOC);
  }

  /** A deletion that has run to its end: the port is free, holds no message and nobody waits on it, and the search of
      the next creation begins there. */
  lemma DeleteFrees(w: World, lost: seq<Lost>, i: int, es: seq<Event>)
    requires Inv(w, lost) && Usable(w, i) && Runs(Step(w, Delete(i)), es)
    requires !BadPort(Step(w, Delete(i)), i) && LimboThrough(Step(w, Delete(i)), es, i)
    ensures var pt, w' := w.ports[i], Exec(Step(w, Delete(i)), es);
            && !BadPort(w', i) && w'.nextid == i
            && w'.ports[i].state == PT_FREE && w'.ports[i].epoch == pt.epoch + 1 && w'.ports[i].queue == []
            && w'.ports[i].ssem.waiters == [] && w'.ports[i].rsem.waiters == []
  {
    hide Inv, HeadSafe;
    StepKeeps(w, lost, Delete(i));
    LimboRun(Step(w, Delete(i)), LostAfter(w, lost, Delete(i)), es, i, PT_FREE);
  }

  function PartsLeft(c: Clear): nat {
    match c
    case NoClear => 0
    case Marked(_) => 4
    case Spliced(_) => 3
    case SendDone(_) => 2
    case RecvDone(_) => 1
  }

  lemma {:induction false} PartsFollow(w: World, i: int)
    requires Shape(w) && !BadPort(w, i) && (w.ports[i].clear == NoClear <==> w.ports[i].state != PT_LIMBO)
    requires w.ports[i].clear != NoClear ==> w.ports[i].clear.next != PT_LIMBO
    ensures var es := seq(PartsLeft(w.ports[i].clear), _ => Clearing(i)); Runs(w, es) && LimboThrough(w, es, i)
    decreases PartsLeft(w.ports[i].clear)
  {
    var es := seq(PartsLeft(w.ports[i].clear), _ => Clearing(i));
    if es != [] {
      var w1 := Step(w, es[0]);
      assert Shape(w1) && PartsLeft(w1.ports[i].clear) == |es| - 1;
      PartsFollow(w1, i);
      assert es[1..] == seq(PartsLeft(w1.ports[i].clear), _ => Clearing(i));
    }
  }

  /** A clear does end: from every state in which a port is in limbo its remaining parts can follow each other. */
  lemma ClearEnds(w: World, lost: seq<Lost>, i: int) returns (es: seq<Event>)
    requires Inv(w, lost) && !BadPort(w, i) && w.ports[i].state == PT_LIMBO
    ensures (forall e :: e in es ==> e == Clearing(i)) && Runs(w, es) && LimboThrough(w, es, i)
  {
    assert PortOk(w.pcs, i, w.ports[i], lost[i]);
    hide PortOk;
    PartsFollow(w, i);
    es := seq(PartsLeft(w.ports[i].clear), _ => Clearing(i));
  }
}
