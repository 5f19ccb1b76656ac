/** Whole runs of the port system (Chapter 11): safety, conservation of nodes, order of messages, and what a clear
    means for the calls that it interrupts. */
module PortRuns {
  import opened Types
  import opened Lists
  import opened PortState
  import opened Ports

  ghost predicate Runs(w: World, es: seq<Event>)
    decreases |es|
  {
    es == [] || (Shape(w) && Enabled(w, es[0]) && Runs(Step(w, es[0]), es[1..]))
  }

  ghost function Exec(w: World, es: seq<Event>): World
    requires Runs(w, es)
    decreases |es|
  {
    if es == [] then w else Exec(Step(w, es[0]), es[1..])
  }

  /** At no point of the run does a receiver follow a NULL head. */
  ghost predicate NeverNull(w: World, es: seq<Event>)
    requires Runs(w, es)
    decreases |es|
  {
    es == [] || (HeadSafe(w, es[0]) && NeverNull(Step(w, es[0]), es[1..]))
  }

  /** Some process is killed between its release and the code behind `wait`. */
  ghost predicate KillsInFlight(w: World, es: seq<Event>)
    requires Runs(w, es)
    decreases |es|
  {
    es != [] && ((es[0].Kill? && InFlight(w, es[0].pid)) || KillsInFlight(Step(w, es[0]), es[1..]))
  }

  ghost predicate Exact(w: World) {
    Inv(w, seq(|w.ports|, i => Lost(0, 0)))
  }

  /** Over every run the laws of all ports hold, up to the tokens lost with processes killed in flight, and exactly when
      there are none; every buffer stays within its bound, and no receiver finds it empty. */
  lemma {:induction false} RunSafe(w: World, es: seq<Event>, lost: seq<Lost>) returns (lost': seq<Lost>)
    requires Inv(w, lost) && Runs(w, es)
    ensures Inv(Exec(w, es), lost') && NeverNull(w, es)
    ensures forall i :: 0 <= i < |Exec(w, es).ports| ==> |Exec(w, es).ports[i].queue| <= Exec(w, es).ports[i].maxcnt
    ensures Exact(w) && lost == seq(|w.ports|, i => Lost(0, 0)) && !KillsInFlight(w, es) ==> Exact(Exec(w, es))
    decreases |es|
  {
    hide PortOk, Enabled, Step, HeadSafe;
    if es == [] {
      lost' := lost;
      WithinBounds(w, lost);
    } else {
      StepKeeps(w, lost, es[0]);
      StepSize(w, es[0]);
      lost' := RunSafe(Step(w, es[0]), es[1..], LostAfter(w, lost, es[0]));
      if lost == seq(|w.ports|, i => Lost(0, 0)) && !KillsInFlight(w, es) {
        NoneLost(w, lost, es[0]);
      }
    }
  }

  lemma WithinBounds(w: World, lost: seq<Lost>)
    requires Inv(w, lost)
    ensures forall i :: 0 <= i < |w.ports| ==> |w.ports[i].queue| <= w.ports[i].maxcnt
  {
    forall i | 0 <= i < |w.ports| ensures |w.ports[i].queue| <= w.ports[i].maxcnt {
      assert PortOk(w.pcs, i, w.ports[i], lost[i]);
    }
  }

  lemma StepSize(w: World, e: Event)
    requires Shape(w) && Enabled(w, e)
    ensures |Step(w, e).ports| == |w.ports| && |Step(w, e).pcs| == |w.pcs|
  {
    hide Panics, Revalidates, Recent;
  }

  lemma NoneLost(w: World, lost: seq<Lost>, e: Event)
    requires Inv(w, lost) && Enabled(w, e) && lost == seq(|w.ports|, i => Lost(0, 0))
    requires !(e.Kill? && InFlight(w, e.pid))
    ensures LostAfter(w, lost, e) == lost
  {
    hide PortOk, Step;
  }

  /** What `ptinit` leaves behind satisfies the invariant. */
  lemma StartInv(n: nat, free: seq<int>, m: nat)
    requires n > 0
    ensures Exact(World(seq(n, i => Port(PT_FREE, 0, 0, [], Sem(0, []), Sem(0, []), NoClear)), free, 0, seq(m, p => Idle)))
  {
  }

  // The bound of a created port

  /** A port gets the laws at its creation exactly when the count fits the 16-bit field that stores the bound. */
  lemma CreateLawIff(w: World, lost: seq<Lost>, i: int, count: int)
    requires Inv(w, lost) && 0 <= i < |w.ports| && w.ports[i].state == PT_FREE && 0 <= count
    ensures SenderLaw(w.pcs, i, NewPort(w.ports[i], count), Lost(0, 0)) <==> count < UINT16_WRAP
    ensures ReceiverLaw(w.pcs, i, NewPort(w.ports[i], count), Lost(0, 0))
  {
    var pt := w.ports[i];
    assert PortOk(w.pcs, i, pt, lost[i]);
    NoFlight(w.pcs, i, pt, NewPort(pt, count));
    hide FlightS, FlightR;
  }

  /** With a count of 65536 the bound is 0, and the first message exceeds it. */
  lemma BoundExceeded(pt: Port, free: seq<int>, msg: int)
    requires pt.state == PT_FREE && free != []
    ensures var w := Created(World([pt], free, 0, [Idle]), UINT16_WRAP);
            var w' := SendFrom(w, 0, 0, msg);
            w'.ports[0].maxcnt == 0 && |w'.ports[0].queue| == 1
  {
    assert FreePort([pt], 0, 1) == 0;
  }

  /** `ptcreate` fails for want of a port exactly when no port is free. */
  lemma NoPortIff(ports: seq<Port>, from: nat)
    requires from < |ports|
    ensures FreePort(ports, from, |ports|) == |ports| <==> forall j :: 0 <= j < |ports| ==> ports[j].state != PT_FREE
  {
    var k := FirstFree(ports, from, |ports|);
    hide FreePort;
    if FreePort(ports, from, |ports|) == |ports| {
      forall j | 0 <= j < |ports|
        ensures ports[j].state != PT_FREE
      {
        AroundOnce(from, j, |ports|);
      }
    }
  }

  /** None of the first k ports around the table from entry `from` is free. */
  ghost predicate NoneFree(ports: seq<Port>, from: nat, k: nat)
    requires from < |ports| && k <= |ports|
  {
    forall j :: 0 <= j < k ==> ports[Around(from, j, |ports|)].state != PT_FREE
  }

  /** The port found is the first free one around the table from entry `from`. */
  lemma {:induction false} FirstFree(ports: seq<Port>, from: nat, tries: nat) returns (k: nat)
    requires from < |ports| && tries <= |ports|
    ensures k <= tries && NoneFree(ports, from, k)
    ensures FreePort(ports, from, tries) == if k < tries then Around(from, k, |ports|) else |ports|
    ensures k < tries ==> ports[Around(from, k, |ports|)].state == PT_FREE
    decreases tries
  {
    var n := |ports|;
    if tries == 0 || ports[from].state == PT_FREE {
      return 0;
    }
    k := FirstFree(ports, Round(from, n), tries - 1);
    k := k + 1;
    assert forall j :: 1 <= j <= tries && j < n ==> Around(Round(from, n), j - 1, n) == Around(from, j, n);
  }

  // Message nodes

  function Queued(ports: seq<Port>): seq<int> {
    if ports == [] then [] else Nodes(ports[0].queue) + Queued(ports[1..])
  }

  /** Every node, wherever it is. */
  function AllNodes(w: World): seq<int> {
    w.free + Queued(w.ports)
  }

  lemma {:induction false} QueuedUpdate(ports: seq<Port>, i: nat, pt: Port)
    requires i < |ports|
    ensures multiset(Queued(ports[i := pt])) + multiset(Nodes(ports[i].queue))
            == multiset(Queued(ports)) + multiset(Nodes(pt.queue))
  {
    hide Nodes;
    var ports' := ports[i := pt];
    assert Queued(ports') == Nodes(ports'[0].queue) + Queued(ports'[1..]);
    assert Queued(ports) == Nodes(ports[0].queue) + Queued(ports[1..]);
    if i == 0 {
      assert ports'[1..] == ports[1..];
    } else {
      assert ports'[1..] == ports[1..][i - 1 := pt];
      assert ports[1..][i - 1] == ports[i] && ports'[0] == ports[0];
      QueuedUpdate(ports[1..], i - 1, pt);
      Behind(Nodes(ports[0].queue), Queued(ports'[1..]), Queued(ports[1..]), Nodes(ports[i].queue), Nodes(pt.queue));
    }
  }

  lemma Behind(h: seq<int>, q': seq<int>, q: seq<int>, n: seq<int>, n': seq<int>)
    requires multiset(q') + multiset(n) == multiset(q) + multiset(n')
    ensures multiset(h + q') + multiset(n) == multiset(h + q) + multiset(n')
  {
    forall x
      ensures (multiset(h + q') + multiset(n))[x] == (multiset(h + q) + multiset(n'))[x]
    {
      assert (multiset(q') + multiset(n))[x] == (multiset(q) + multiset(n'))[x];
      assert multiset(h + q')[x] == multiset(h)[x] + multiset(q')[x];
      assert multiset(h + q)[x] == multiset(h)[x] + multiset(q)[x];
    }
  }

  lemma {:induction false} NodesAppend(a: seq<Item>, b: seq<Item>)
    ensures Nodes(a + b) == Nodes(a) + Nodes(b)
  {
  }

  // One port and the free list exchange nodes.
  lemma Exchanged(w: World, w': World, i: nat)
    requires i < |w.ports| == |w'.ports| && w'.ports == w.ports[i := w'.ports[i]]
    requires multiset(w'.free) + multiset(Nodes(w'.ports[i].queue))
            == multiset(w.free) + multiset(Nodes(w.ports[i].queue))
    ensures multiset(AllNodes(w')) == multiset(AllNodes(w))
  {
    QueuedUpdate(w.ports, i, w'.ports[i]);
    Cancel(multiset(w'.free), multiset(Queued(w'.ports)), multiset(w.free), multiset(Queued(w.ports)),
           multiset(Nodes(w'.ports[i].queue)), multiset(Nodes(w.ports[i].queue)));
  }

  lemma Cancel(f': multiset<int>, q': multiset<int>, f: multiset<int>, q: multiset<int>, n': multiset<int>,
               n: multiset<int>)
    requires q' + n == q + n' && f' + n' == f + n
    ensures f' + q' == f + q
  {
    forall x
      ensures (f' + q')[x] == (f + q)[x]
    {
      assert (q' + n)[x] == (q + n')[x] && (f' + n')[x] == (f + n)[x];
    }
  }

  lemma AppendNodes(w: World, i: int, msg: int)
    requires !BadPort(w, i)
    ensures multiset(AllNodes(Appended(w, i, msg))) == multiset(AllNodes(w))
  {
    if w.free != [] {
      var pt := w.ports[i];
      NodesAppend(pt.queue, [Item(w.free[0], msg)]);
      assert Nodes([Item(w.free[0], msg)]) == [w.free[0]];
      assert w.free == [w.free[0]] + w.free[1..];
      Exchanged(w, Appended(w, i, msg), i);
    }
  }

  lemma HeadNodes(w: World, i: int)
    requires !BadPort(w, i)
    ensures multiset(AllNodes(HeadTaken(w, i))) == multiset(AllNodes(w))
  {
    if w.ports[i].queue != [] {
      Exchanged(w, HeadTaken(w, i), i);
    }
  }

  lemma SameQueue(w: World, w': World, i: nat)
    requires i < |w.ports| == |w'.ports| && w'.ports == w.ports[i := w'.ports[i]]
    requires w'.free == w.free && w'.ports[i].queue == w.ports[i].queue
    ensures multiset(AllNodes(w')) == multiset(AllNodes(w))
  {
    Exchanged(w, w', i);
  }

  lemma StepNodes(w: World, lost: seq<Lost>, e: Event)
    requires Inv(w, lost) && Enabled(w, e)
    ensures multiset(AllNodes(Step(w, e))) == multiset(AllNodes(w))
  {
    hide AllNodes, PortOk, Revalidates, SemWait, SemSignal, Panics, Recent;
    match e
    case Send(p, i, msg) =>
      if Usable(w, i) {
        var w1 := WithPort(w, i, w.ports[i].(ssem := SemWait(w.ports[i].ssem, p)));
        SameQueue(w, w1, i);
        AppendNodes(w1, i, msg);
        SameNodes(w1, WithPc(w1, p, Sending(i, w.ports[i].epoch, msg)));
      }
    case SendTail(p) =>
      SameNodes(w, WithPc(w, p, Idle));
      AppendNodes(WithPc(w, p, Idle), w.pcs[p].port, w.pcs[p].msg);
    case Recv(p, i) =>
      if Usable(w, i) {
        var w1 := WithPort(w, i, w.ports[i].(rsem := SemWait(w.ports[i].rsem, p)));
        SameQueue(w, w1, i);
        HeadNodes(w1, i);
        SameNodes(w1, WithPc(w1, p, Receiving(i, w.ports[i].epoch)));
      }
    case RecvTail(p) =>
      SameNodes(w, WithPc(w, p, Idle));
      HeadNodes(WithPc(w, p, Idle), w.pcs[p].port);
    case Create(count) => CreateNodes(w, lost, count);
    case Delete(i) => if Usable(w, i) { SameQueue(w, ClearFrom(w, i, PT_FREE), i); }
    case Reset(i) => if Usable(w, i) { SameQueue(w, ClearFrom(w, i, PT_ALLOC), i); }
    case Clearing(i) => ClearNodes(w, i);
    case Kill(p) => KillNodes(w, p);
  }

  lemma SameNodes(w: World, w': World)
    requires w'.free == w.free && w'.ports == w.ports
    ensures AllNodes(w') == AllNodes(w)
  {
  }

  lemma CreateNodes(w: World, lost: seq<Lost>, count: int)
    requires Inv(w, lost)
    ensures multiset(AllNodes(Created(w, count))) == multiset(AllNodes(w))
  {
    var i := FreePort(w.ports, w.nextid, |w.ports|);
    if count >= 0 && i < |w.ports| {
      assert PortOk(w.pcs, i, w.ports[i], lost[i]);
      SameQueue(w, Created(w, count), i);
    }
  }

  lemma ClearNodes(w: World, i: int)
    requires !BadPort(w, i)
    ensures multiset(AllNodes(ClearRest(w, i))) == multiset(AllNodes(w))
  {
    hide AllNodes;
    var pt := w.ports[i];
    if pt.clear.Marked? {
      Exchanged(w, ClearRest(w, i), i);
    } else if pt.clear != NoClear {
      SameQueue(w, ClearRest(w, i), i);
    }
  }

  lemma KillNodes(w: World, p: int)
    requires Shape(w) && 0 <= p < |w.pcs|
    ensures multiset(AllNodes(Killed(w, p))) == multiset(AllNodes(w))
  {
    hide AllNodes, SemWithdraw;
    if w.pcs[p] != Idle {
      var i := w.pcs[p].port;
      if Killed(w, p).ports == w.ports {
        SameNodes(w, Killed(w, p));
      } else {
        SameQueue(w, Killed(w, p), i);
      }
    }
  }

  /** Over every run no node is lost, duplicated or shared: free nodes and queued nodes are always the nodes of the
      start. */
  lemma {:induction false} NodesConserved(w: World, es: seq<Event>, lost: seq<Lost>)
    requires Inv(w, lost) && Runs(w, es)
    ensures multiset(AllNodes(Exec(w, es))) == multiset(AllNodes(w))
    decreases |es|
  {
    hide PortOk, Enabled, Step, HeadSafe, AllNodes;
    if es != [] {
      StepKeeps(w, lost, es[0]);
      StepNodes(w, lost, es[0]);
      NodesConserved(Step(w, es[0]), es[1..], LostAfter(w, lost, es[0]));
    }
  }

  // Enough nodes

  /** The number of messages that the ports in use may hold at most. */
  function Bounds(ports: seq<Port>): int {
    if ports == [] then 0 else (if ports[0].state == PT_FREE then 0 else ports[0].maxcnt) + Bounds(ports[1..])
  }

  ghost predicate Within(ports: seq<Port>) {
    forall i :: 0 <= i < |ports| ==> |ports[i].queue| <= if ports[i].state == PT_FREE then 0 else ports[i].maxcnt
  }

  lemma {:induction false} QueuedWithin(ports: seq<Port>)
    requires Within(ports)
    ensures |Queued(ports)| <= Bounds(ports)
  {
    if ports != [] {
      assert |ports[0].queue| <= if ports[0].state == PT_FREE then 0 else ports[0].maxcnt;
      QueuedWithin(ports[1..]);
    }
  }

  lemma {:induction false} QueuedBelow(ports: seq<Port>, i: nat)
    requires Within(ports) && i < |ports| && ports[i].state != PT_FREE && |ports[i].queue| < ports[i].maxcnt
    ensures |Queued(ports)| < Bounds(ports)
  {
    assert |ports[0].queue| <= if ports[0].state == PT_FREE then 0 else ports[0].maxcnt;
    if i == 0 {
      QueuedWithin(ports[1..]);
    } else {
      QueuedBelow(ports[1..], i - 1);
    }
  }

  lemma InvWithin(w: World, lost: seq<Lost>)
    requires Inv(w, lost)
    ensures Within(w.ports)
  {
    forall i | 0 <= i < |w.ports|
      ensures |w.ports[i].queue| <= if w.ports[i].state == PT_FREE then 0 else w.ports[i].maxcnt
    {
      assert PortOk(w.pcs, i, w.ports[i], lost[i]);
    }
  }

  /** The system panics only when the bounds of the ports in use exceed the number of nodes: otherwise a sender that has
      passed its test always finds a free node. */
  lemma EnoughNodes(w: World, lost: seq<Lost>, e: Event)
    requires Inv(w, lost) && Callable(w, e) && Bounds(w.ports) <= |AllNodes(w)|
    ensures !Panics(w, e)
  {
    if Panics(w, e) {
      var i := if e.Send? then e.port else w.pcs[e.pid].port;
      SenderRoom(w, lost, e, i);
      InvWithin(w, lost);
      QueuedBelow(w.ports, i);
    }
  }

  lemma SenderRoom(w: World, lost: seq<Lost>, e: Event, i: int)
    requires Inv(w, lost) && Callable(w, e) && Panics(w, e)
    requires i == if e.Send? then e.port else w.pcs[e.pid].port
    ensures w.ports[i].state == PT_ALLOC && |w.ports[i].queue| < w.ports[i].maxcnt
  {
    var pt := w.ports[i];
    assert PortOk(w.pcs, i, pt, lost[i]);
    if e.SendTail? {
      RevalidatesIff(w.pcs, i, pt, lost[i], e.pid);
      InSet(FlightS(w.pcs, i, pt), e.pid);
    }
    hide FlightS, FlightR, WaitersOk, ClearOk, Begun;
    LawBounds(w.pcs, i, pt, lost[i]);
  }

  // Order of messages

  function Msgs(q: seq<Item>): (r: seq<int>)
    ensures |r| == |q| && forall k :: 0 <= k < |q| ==> r[k] == q[k].msg
  {
    if q == [] then [] else [q[0].msg] + Msgs(q[1..])
  }

  /** The message that a step puts into port i. */
  ghost function Put(w: World, e: Event, i: int): seq<int>
    requires Shape(w) && Enabled(w, e)
  {
    match e
    case Send(_, j, msg) => if j == i && Usable(w, j) && w.ports[j].ssem.count > 0 then [msg] else []
    case SendTail(p) =>
      if w.pcs[p].port == i && Revalidates(w.ports[i], w.pcs[p].epoch) then [w.pcs[p].msg] else []
    case _ => []
  }

  /** The message that a step hands to a receiver of port i. */
  ghost function Got(w: World, e: Event, i: int): seq<int>
    requires Shape(w) && Enabled(w, e) && HeadSafe(w, e)
  {
    match e
    case Recv(_, j) => if j == i && Usable(w, j) && w.ports[j].rsem.count > 0 then [w.ports[j].queue[0].msg] else []
    case RecvTail(p) =>
      if w.pcs[p].port == i && Revalidates(w.ports[i], w.pcs[p].epoch) then [w.ports[i].queue[0].msg] else []
    case _ => []
  }

  ghost function AllPut(w: World, es: seq<Event>, i: int): seq<int>
    requires Runs(w, es)
    decreases |es|
  {
    if es == [] then [] else Put(w, es[0], i) + AllPut(Step(w, es[0]), es[1..], i)
  }

  ghost function AllGot(w: World, es: seq<Event>, i: int): seq<int>
    requires Runs(w, es) && NeverNull(w, es)
    decreases |es|
  {
    if es == [] then [] else Got(w, es[0], i) + AllGot(Step(w, es[0]), es[1..], i)
  }

  lemma AppendOrder(w: World, i: int, msg: int)
    requires !BadPort(w, i) && w.free != []
    ensures Msgs(Appended(w, i, msg).ports[i].queue) == Msgs(w.ports[i].queue) + [msg]
  {
  }

  lemma HeadOrder(w: World, i: int)
    requires !BadPort(w, i) && w.ports[i].queue != []
    ensures [w.ports[i].queue[0].msg] + Msgs(HeadTaken(w, i).ports[i].queue) == Msgs(w.ports[i].queue)
  {
  }

  lemma SendOrder(w: World, e: Event, i: int)
    requires Shape(w) && Enabled(w, e) && HeadSafe(w, e) && !BadPort(w, i) && (e.Send? || e.SendTail?)
    ensures !BadPort(Step(w, e), i)
    ensures Msgs(Step(w, e).ports[i].queue) == Msgs(w.ports[i].queue) + Put(w, e, i)
  {
    hide Recent, SemWait, SemSignal, Ptseq, Msgs, Appended;
    if e.Send? && Usable(w, e.port) && w.ports[e.port].ssem.count > 0 {
      var w1 := WithPort(w, e.port, w.ports[e.port].(ssem := SemWait(w.ports[e.port].ssem, e.pid)));
      AppendElse(w1, e.port, e.msg);
      AppendOrder(w1, e.port, e.msg);
    }
    if e.SendTail? && Revalidates(w.ports[w.pcs[e.pid].port], w.pcs[e.pid].epoch) {
      AppendElse(WithPc(w, e.pid, Idle), w.pcs[e.pid].port, w.pcs[e.pid].msg);
      AppendOrder(WithPc(w, e.pid, Idle), w.pcs[e.pid].port, w.pcs[e.pid].msg);
    }
  }

  lemma AppendElse(w: World, i: int, msg: int)
    requires !BadPort(w, i)
    ensures var w' := Appended(w, i, msg);
            |w'.ports| == |w.ports| && forall j :: 0 <= j < |w.ports| && j != i ==> w'.ports[j] == w.ports[j]
  {
  }

  lemma HeadElse(w: World, i: int)
    requires !BadPort(w, i)
    ensures var w' := HeadTaken(w, i);
            |w'.ports| == |w.ports| && forall j :: 0 <= j < |w.ports| && j != i ==> w'.ports[j] == w.ports[j]
  {
  }

  lemma RecvOrder(w: World, e: Event, i: int)
    requires Shape(w) && Enabled(w, e) && HeadSafe(w, e) && !BadPort(w, i) && (e.Recv? || e.RecvTail?)
    ensures !BadPort(Step(w, e), i)
    ensures Got(w, e, i) + Msgs(Step(w, e).ports[i].queue) == Msgs(w.ports[i].queue)
  {
    hide Recent, SemWait, SemSignal, Ptseq, Msgs, HeadTaken;
    if e.Recv? && Usable(w, e.port) && w.ports[e.port].rsem.count > 0 {
      var w1 := WithPort(w, e.port, w.ports[e.port].(rsem := SemWait(w.ports[e.port].rsem, e.pid)));
      HeadElse(w1, e.port);
      HeadOrder(w1, e.port);
    }
    if e.RecvTail? && Revalidates(w.ports[w.pcs[e.pid].port], w.pcs[e.pid].epoch) {
      HeadElse(WithPc(w, e.pid, Idle), w.pcs[e.pid].port);
      HeadOrder(WithPc(w, e.pid, Idle), w.pcs[e.pid].port);
    }
  }

  lemma OtherOrder(w: World, lost: seq<Lost>, e: Event, i: int)
    requires Inv(w, lost) && Enabled(w, e) && !BadPort(w, i)
    requires !e.Send? && !e.SendTail? && !e.Recv? && !e.RecvTail?
    requires e == Clearing(i) ==> !w.ports[i].clear.Marked?
    ensures !BadPort(Step(w, e), i) && Step(w, e).ports[i].queue == w.ports[i].queue
  {
    hide Appended, HeadTaken, IndexOf, Nodes, RemoveAt, SemDelete;
    assert PortOk(w.pcs, i, w.ports[i], lost[i]);
    hide Recent, SemOk, SemWithdraw, Begun, WaitersOk;
  }

  lemma StepOrder(w: World, lost: seq<Lost>, e: Event, i: int)
    requires Inv(w, lost) && Enabled(w, e) && HeadSafe(w, e) && !BadPort(w, i)
    requires e == Clearing(i) ==> !w.ports[i].clear.Marked?
    ensures !BadPort(Step(w, e), i)
    ensures Got(w, e, i) + Msgs(Step(w, e).ports[i].queue) == Msgs(w.ports[i].queue) + Put(w, e, i)
  {
    hide PortOk, Step, Enabled, Msgs;
    if e.Send? || e.SendTail? {
      SendOrder(w, e, i);
    } else if e.Recv? || e.RecvTail? {
      RecvOrder(w, e, i);
    } else {
      OtherOrder(w, lost, e, i);
    }
  }

  /** First in, first out: over every run without a clear of port i, what receivers got, followed by what is still in
      the buffer, is what was in the buffer at the start, followed by what senders put in. */
  lemma {:induction false} FirstInFirstOut(w: World, es: seq<Event>, lost: seq<Lost>, i: int)
    requires Inv(w, lost) && Runs(w, es) && NeverNull(w, es) && !BadPort(w, i)
    requires Clearing(i) !in es
    ensures !BadPort(Exec(w, es), i)
    ensures AllGot(w, es, i) + Msgs(Exec(w, es).ports[i].queue) == Msgs(w.ports[i].queue) + AllPut(w, es, i)
    decreases |es|
  {
    hide Inv, Enabled, Step, HeadSafe, Got, Put, Msgs;
    if es != [] {
      var w1 := Step(w, es[0]);
      StepKeeps(w, lost, es[0]);
      StepOrder(w, lost, es[0], i);
      FirstInFirstOut(w1, es[1..], LostAfter(w, lost, es[0]), i);
      var g, g', m, p, p', f := Got(w, es[0], i), AllGot(w1, es[1..], i), Msgs(w1.ports[i].queue), Put(w, es[0], i),
        AllPut(w1, es[1..], i), Msgs(Exec(w, es).ports[i].queue);
      assert (g + g') + f == g + (g' + f) && g + (m + p') == (g + m) + p';
      assert (Msgs(w.ports[i].queue) + p) + p' == Msgs(w.ports[i].queue) + (p + p');
    }
  }

  // Clears and the calls they interrupt

  lemma EpochGrows(w: World, e: Event, i: int)
    requires Shape(w) && Enabled(w, e) && !BadPort(w, i)
    ensures !BadPort(Step(w, e), i) && Step(w, e).ports[i].epoch >= w.ports[i].epoch
  {
    hide Panics, Revalidates, Recent, SemWait, SemSignal, SemWithdraw;
  }

  lemma {:induction false} EpochsGrow(w: World, es: seq<Event>, i: int)
    requires Runs(w, es) && !BadPort(w, i)
    ensures !BadPort(Exec(w, es), i) && Exec(w, es).ports[i].epoch >= w.ports[i].epoch
    decreases |es|
  {
    hide Enabled, Step;
    if es != [] {
      EpochGrows(w, es[0], i);
      EpochsGrow(Step(w, es[0]), es[1..], i);
    }
  }

  /** A call that was inside port i when a clear of it began never changes any port or node afterwards, however long it
      stays in flight and whatever happens in between: it returns SYSERR. */
  lemma InterruptedCallFails(w: World, lost: seq<Lost>, clear: Event, es: seq<Event>, p: int)
    requires Inv(w, lost) && (clear.Reset? || clear.Delete?) && Usable(w, clear.port)
    requires 0 <= p < |w.pcs| && w.pcs[p] != Idle && w.pcs[p].port == clear.port
    requires Runs(Step(w, clear), es)
    ensures var w' := Exec(Step(w, clear), es);
            var e := if w.pcs[p].Sending? then SendTail(p) else RecvTail(p);
            Shape(w') && p < |w'.pcs| && w'.pcs[p] == w.pcs[p] && Enabled(w', e) ==> Step(w', e) == WithPc(w', p, Idle)
  {
    var i, w1 := clear.port, Step(w, clear);
    var w' := Exec(w1, es);
    EpochsGrow(w1, es, i);
    assert PortOk(w.pcs, i, w.ports[i], lost[i]);
    assert w.pcs[p].epoch < w'.ports[i].epoch;
    if Shape(w') && p < |w'.pcs| && w'.pcs[p] == w.pcs[p] {
      hide PortOk, Runs, Exec, ClearFrom, Panics;
      var e := if w.pcs[p].Sending? then SendTail(p) else RecvTail(p);
      if Enabled(w', e) { SameSeq(w.pcs[p].epoch, w'.ports[i].epoch); }
    }
  }

  /** Without that bound on the number of clears, the test passes on an allocated port exactly when the number of
      clears and creations since the call began is a multiple of 2^32. */
  lemma WrapIff(pt: Port, epoch: nat)
    requires pt.state == PT_ALLOC && epoch <= pt.epoch
    ensures Revalidates(pt, epoch) <==> (pt.epoch - epoch) % SEQ_WRAP == 0
  {
  }

  /** While a port is in limbo, nothing but the clear itself touches its buffer, its state or its sequence number: what
      `dispose` sees and what is spliced is what was there when the clear began. */
  lemma LimboAlone(w: World, e: Event, i: int)
    requires Shape(w) && Enabled(w, e) && !BadPort(w, i) && w.ports[i].state == PT_LIMBO && e != Clearing(i)
    ensures !BadPort(Step(w, e), i)
    ensures var pt, pt' := w.ports[i], Step(w, e).ports[i];
            pt' == pt.(ssem := pt'.ssem, rsem := pt'.rsem) && (!e.Kill? ==> pt' == pt)
  {
    hide Panics, Recent, SemWait, SemSignal, SemWithdraw, Ptseq, SemDelete, InFlight;
  }
}
