/** `ptinit`, `ptcreate`, `ptsend`, `ptrecv`, `ptdelete`, `ptreset` and `_ptclear` (Chapter 11) on the port table and
    the message nodes. Each part of a call between two context switches changes the state exactly as its step in
    PortState. */
module PortTable {
  import opened Types
  import opened Lists
  import opened PortState
  import opened Ports
  import opened PortRuns
  import opened PortNodes

  /** What a call returns; BLOCKED means that its process waits, and that the tail of the call is still to run. */
  datatype PtResult = PT_OK | PT_SYSERR | BLOCKED | PANIC

  class PortSystem {
    const nodes: array<PtNode>
    const porttab: array<PtEntry>
    var ptfree: int
    var ptnextid: int

    // Abstraction, and the tokens lost with processes killed in flight.
    ghost var world: World
    ghost var lost: seq<Lost>

    ghost predicate Valid()
      reads this, nodes, porttab
    {
      && TableOk(nodes[..], ptfree, porttab[..], world)
      && ptnextid == world.nextid && Inv(world, lost)
    }

    /** `ptinit` with room for maxmsgs nodes, chained in address order. */
    constructor PtInit(nports: nat, maxmsgs: nat, nprocs: nat)
      requires nports > 0 && maxmsgs > 0
      ensures Valid() && fresh(nodes) && fresh(porttab) && nodes.Length == maxmsgs
      ensures world == World(FreshPorts(nports), seq(maxmsgs, i => i), 0, seq(nprocs, i => Idle))
    {
      nodes := new PtNode[maxmsgs](_ => PtNode(0, NULL));
      porttab := new PtEntry[nports](_ => PtEntry(PT_FREE, 0, 0, NULL, NULL, Sem(0, []), Sem(0, [])));
      ptfree, ptnextid := 0, 0;
      world := World(FreshPorts(nports), seq(maxmsgs, i => i), 0, seq(nprocs, i => Idle));
      lost := seq(nports, i => Lost(0, 0));
      new;
      ChainNodes();
      StartTable(nodes[..], porttab[..], world);
      StartInv(nports, world.free, nprocs);
    }

    // The loop of `ptinit` that chains the nodes.
    method ChainNodes()
      requires nodes.Length > 0
      modifies nodes
      ensures forall i :: 0 <= i < nodes.Length ==> nodes[i].ptnext == if i + 1 < nodes.Length then i + 1 else NULL
    {
      var maxmsgs, curr, next := nodes.Length - 1, 0, 0;
      while maxmsgs > 0
        invariant 0 <= maxmsgs < nodes.Length && curr == next == nodes.Length - 1 - maxmsgs
        invariant forall i :: 0 <= i < curr ==> nodes[i].ptnext == i + 1
      {
        next := next + 1;
        nodes[curr] := nodes[curr].(ptnext := next);
        maxmsgs := maxmsgs - 1;
        curr := next;
      }
      nodes[curr] := nodes[curr].(ptnext := NULL);
    }

    predicate IsBadPort(portid: int) {
      portid < 0 || portid >= porttab.Length
    }

    lemma Entry(i: int)
      requires Valid() && !IsBadPort(i)
      ensures !BadPort(world, i) && EntryOk(nodes[..], porttab[i], world.ports[i])
      ensures PortOk(world.pcs, i, world.ports[i], lost[i])
    {
      assert porttab[..][i] == porttab[i];
    }

    // Sets an entry whose queue stays as it is.
    method SetEntry(i: int, en: PtEntry, ghost w: World, ghost w': World)
      requires TableOk(nodes[..], ptfree, porttab[..], w) && 0 <= i < porttab.Length
      requires |w'.ports| == |w.ports| && w'.ports == w.ports[i := w'.ports[i]]
      requires w'.free == w.free && w'.ports[i].queue == w.ports[i].queue
      requires EntryOk(nodes[..], en, w'.ports[i])
      modifies porttab
      ensures TableOk(nodes[..], ptfree, porttab[..], w')
    {
      hide EntryOk, TableOk;
      ghost var tab := porttab[..];
      EntryTable(nodes[..], ptfree, tab, w, i, en, w');
      porttab[i] := en;
      assert porttab[..] == tab[i := en];
    }

    // The end of `ptsend`.
    method Append(portid: int, msg: int, ghost w: World)
      requires TableOk(nodes[..], ptfree, porttab[..], w) && 0 <= portid < porttab.Length
      requires !BadPort(w, portid) && w.ports[portid].state == PT_ALLOC && w.ports[portid].clear == NoClear
      requires w.free != []
      modifies this`ptfree, nodes, porttab
      ensures TableOk(nodes[..], ptfree, porttab[..], Appended(w, portid, msg))
    {
      hide TableOk, Appended, SemSignal;
      ghost var ns, tab := nodes[..], porttab[..];
      AppendTable(ns, ptfree, tab, w, portid, msg);
      var msgnode := ptfree;
      ptfree := nodes[msgnode].ptnext;
      nodes[msgnode] := PtNode(msg, NULL);
      var tailnode := porttab[portid].pttail;
      if tailnode == NULL {
        porttab[portid] := porttab[portid].(pttail := msgnode, pthead := msgnode);
      } else {
        nodes[tailnode] := nodes[tailnode].(ptnext := msgnode);
        porttab[portid] := porttab[portid].(pttail := msgnode);
      }
      porttab[portid] := porttab[portid].(ptrsem := SemSignal(porttab[portid].ptrsem));
      assert nodes[..] == AppendNode(ns, tab[portid].pttail, msgnode, msg);
      assert porttab[..] == tab[portid := porttab[portid]];
    }

    // The end of `ptrecv`.
    method TakeHead(portid: int, ghost w: World) returns (msg: int)
      requires TableOk(nodes[..], ptfree, porttab[..], w) && 0 <= portid < porttab.Length
      requires !BadPort(w, portid) && w.ports[portid].state == PT_ALLOC && w.ports[portid].clear == NoClear
      requires w.ports[portid].queue != []
      modifies this`ptfree, nodes, porttab
      ensures TableOk(nodes[..], ptfree, porttab[..], HeadTaken(w, portid))
      ensures msg == w.ports[portid].queue[0].msg
    {
      hide TableOk, HeadTaken, SemSignal;
      ghost var ns, tab := nodes[..], porttab[..];
      HeadTable(ns, ptfree, tab, w, portid);
      var msgnode := porttab[portid].pthead;
      msg := nodes[msgnode].ptmsg;
      if porttab[portid].pthead == porttab[portid].pttail {
        porttab[portid] := porttab[portid].(pthead := NULL, pttail := NULL);
      } else {
        porttab[portid] := porttab[portid].(pthead := nodes[msgnode].ptnext);
      }
      nodes[msgnode] := nodes[msgnode].(ptnext := ptfree);
      ptfree := msgnode;
      porttab[portid] := porttab[portid].(ptssem := SemSignal(porttab[portid].ptssem));
      assert nodes[..] == ns[msgnode := nodes[msgnode]];
      assert porttab[..] == tab[portid := porttab[portid]];
    }

    /** `ptsend` up to its context switch. On BLOCKED the rest of the call is PtSendTail with the same arguments and
        seq. */
    method PtSend(pid: int, portid: int, msg: int) returns (r: PtResult, seq': int)
      requires Valid() && Callable(world, Send(pid, portid, msg))
      modifies this`ptfree, this`world, nodes, porttab
      ensures r == PANIC <==> Panics(old(world), Send(pid, portid, msg))
      ensures r != PANIC ==> Valid() && world == Step(old(world), Send(pid, portid, msg))
      ensures r == PT_SYSERR <==> !Usable(old(world), portid)
      ensures r == BLOCKED <==> Usable(old(world), portid) && old(world).ports[portid].ssem.count <= 0
      ensures r == BLOCKED ==>
        world.pcs[pid] == Sending(portid, old(world).ports[portid].epoch, msg) && seq' == Ptseq(old(world).ports[portid])
    {
      hide TableOk, Inv, Appended, SemWait, EntryOk, PortOk;
      seq' := 0;
      ShapeOf();
      if IsBadPort(portid) {
        assert world == Step(world, Send(pid, portid, msg));
        return PT_SYSERR, 0;
      }
      Entry(portid);
      EntryFields(portid);
      if porttab[portid].ptstate != PT_ALLOC {
        assert world == Step(world, Send(pid, portid, msg));
        return PT_SYSERR, 0;
      }
      seq' := porttab[portid].ptseq;
      ghost var w, pt := world, world.ports[portid];
      var sem := porttab[portid].ptssem;
      ghost var w1 := WithPort(w, portid, pt.(ssem := SemWait(pt.ssem, pid)));
      if sem.count > 0 && ptfree == NULL {
        return PANIC, seq';
      }
      StepKeepsIt(Send(pid, portid, msg));
      SemEntry(nodes[..], porttab[portid], pt, SemWait(sem, pid));
      SetEntry(portid, porttab[portid].(ptssem := SemWait(sem, pid)), w, w1);
      if sem.count - 1 < 0 {
        PcTable(nodes[..], ptfree, porttab[..], w1, WithPc(w1, pid, Sending(portid, pt.epoch, msg)));
        r := BLOCKED;
      } else {
        Append(portid, msg, w1);
        r := PT_OK;
      }
      world := SendFrom(w, pid, portid, msg);
    }

    /** The rest of `ptsend` behind `wait`. */
    method PtSendTail(pid: int, portid: int, msg: int, seq': int) returns (r: PtResult)
      requires Valid() && Callable(world, SendTail(pid))
      requires world.pcs[pid] == Sending(portid, world.pcs[pid].epoch, msg) && seq' == world.pcs[pid].epoch % SEQ_WRAP
      modifies this`ptfree, this`world, nodes, porttab
      ensures r == PANIC <==> Panics(old(world), SendTail(pid))
      ensures r != PANIC ==> Valid() && world == Step(old(world), SendTail(pid))
      ensures r == PT_SYSERR <==> !Revalidates(old(world).ports[portid], old(world).pcs[pid].epoch)
      ensures r != BLOCKED
    {
      hide TableOk, Inv, Appended, EntryOk, PortOk, Recent;
      ShapeOf();
      Entry(portid);
      EntryFields(portid);
      ghost var w, w1 := world, WithPc(world, pid, Idle);
      if porttab[portid].ptstate != PT_ALLOC || porttab[portid].ptseq != seq' {
        StepKeepsIt(SendTail(pid));
        PcTable(nodes[..], ptfree, porttab[..], w, w1);
        world := w1;
        return PT_SYSERR;
      }
      if ptfree == NULL {
        return PANIC;
      }
      StepKeepsIt(SendTail(pid));
      PcTable(nodes[..], ptfree, porttab[..], w, w1);
      Append(portid, msg, w1);
      world := SendRest(w, pid);
      return PT_OK;
    }

    /** `ptrecv` up to its context switch. */
    method PtRecv(pid: int, portid: int) returns (r: PtResult, seq': int, msg: int)
      requires Valid() && Callable(world, Recv(pid, portid))
      modifies this`ptfree, this`world, nodes, porttab
      ensures Valid() && world == Step(old(world), Recv(pid, portid))
      ensures r == PT_SYSERR <==> !Usable(old(world), portid)
      ensures r == BLOCKED <==> Usable(old(world), portid) && old(world).ports[portid].rsem.count <= 0
      ensures r == BLOCKED ==>
        world.pcs[pid] == Receiving(portid, old(world).ports[portid].epoch) && seq' == Ptseq(old(world).ports[portid])
      ensures r == PT_OK ==> old(world).ports[portid].queue != [] && msg == old(world).ports[portid].queue[0].msg
      ensures r != PANIC
    {
      hide TableOk, Inv, HeadTaken, SemWait, EntryOk, PortOk;
      seq', msg := 0, 0;
      ShapeOf();
      StepKeepsIt(Recv(pid, portid));
      if IsBadPort(portid) {
        return PT_SYSERR, 0, 0;
      }
      Entry(portid);
      EntryFields(portid);
      if porttab[portid].ptstate != PT_ALLOC {
        return PT_SYSERR, 0, 0;
      }
      seq' := porttab[portid].ptseq;
      ghost var w, pt := world, world.ports[portid];
      var sem := porttab[portid].ptrsem;
      ghost var w1 := WithPort(w, portid, pt.(rsem := SemWait(pt.rsem, pid)));
      SemEntry(nodes[..], porttab[portid], pt, SemWait(sem, pid));
      SetEntry(portid, porttab[portid].(ptrsem := SemWait(sem, pid)), w, w1);
      if sem.count - 1 < 0 {
        PcTable(nodes[..], ptfree, porttab[..], w1, WithPc(w1, pid, Receiving(portid, pt.epoch)));
        r := BLOCKED;
      } else {
        msg := TakeHead(portid, w1);
        r := PT_OK;
      }
      world := RecvFrom(w, pid, portid);
    }

    /** The rest of `ptrecv` behind `wait`. */
    method PtRecvTail(pid: int, portid: int, seq': int) returns (r: PtResult, msg: int)
      requires Valid() && Callable(world, RecvTail(pid))
      requires world.pcs[pid] == Receiving(portid, world.pcs[pid].epoch) && seq' == world.pcs[pid].epoch % SEQ_WRAP
      modifies this`ptfree, this`world, nodes, porttab
      ensures Valid() && world == Step(old(world), RecvTail(pid))
      ensures r == if Revalidates(old(world).ports[portid], old(world).pcs[pid].epoch) then PT_OK else PT_SYSERR
      ensures r == PT_OK ==> old(world).ports[portid].queue != [] && msg == old(world).ports[portid].queue[0].msg
    {
      hide TableOk, Inv, HeadTaken, EntryOk, PortOk, Recent;
      msg := 0;
      ShapeOf();
      StepKeepsIt(RecvTail(pid));
      Entry(portid);
      EntryFields(portid);
      ghost var w, w1 := world, WithPc(world, pid, Idle);
      PcTable(nodes[..], ptfree, porttab[..], w, w1);
      if porttab[portid].ptstate != PT_ALLOC || porttab[portid].ptseq != seq' {
        world := w1;
        return PT_SYSERR, 0;
      }
      msg := TakeHead(portid, w1);
      world := RecvRest(w, pid);
      return PT_OK, msg;
    }

    /** `ptcreate`: the next free port in the table, searching around it from ptnextid. */
    method PtCreate(count: int) returns (portid: int)
      requires Valid()
      modifies this`ptnextid, this`world, this`lost, porttab
      ensures TableOk(nodes[..], ptfree, porttab[..], world) && ptnextid == world.nextid
      ensures world == Created(old(world), count) && (count < UINT16_WRAP ==> Valid())
      ensures portid == -1 <==>
              count < 0 || forall j :: 0 <= j < |old(world).ports| ==> old(world).ports[j].state != PT_FREE
      ensures portid != -1 ==> portid == FreePort(old(world).ports, old(world).nextid, porttab.Length)
    {
      hide TableOk, Inv, EntryOk, PortOk, FreePort, NewPort;
      ShapeOf();
      if count < UINT16_WRAP {
        StepKeepsIt(Create(count));
      }
      if count < 0 {
        return -1;
      }
      ghost var w := world;
      NoPortIff(w.ports, w.nextid);
      ghost var i := FreePort(w.ports, w.nextid, |w.ports|);
      if i < |w.ports| {
        Entry(i);
        FreeQueue(i);
      }
      portid := FindPort();
      if portid == -1 {
        return -1;
      }
      ghost var w' := Created(w, count);
      var en := NewEntry(porttab[portid], count);
      NewEntryOk(nodes[..], porttab[portid], w.ports[portid], count);
      lost := if count < UINT16_WRAP then LostAfter(w, lost, Create(count)) else lost;
      SetEntry(portid, en, w, w');
      world := w';
    }

    function NewEntry(en: PtEntry, count: int): PtEntry {
      PtEntry(PT_ALLOC, (en.ptseq + 1) % SEQ_WRAP, count % UINT16_WRAP, NULL, NULL, Sem(count, []), Sem(0, []))
    }

    static lemma NewEntryOk(nodes: seq<PtNode>, en: PtEntry, pt: Port, count: int)
      requires EntryOk(nodes, en, pt)
      ensures var seq' := (en.ptseq + 1) % SEQ_WRAP;
              var en' := PtEntry(PT_ALLOC, seq', count % UINT16_WRAP, NULL, NULL, Sem(count, []), Sem(0, []));
              EntryOk(nodes, en', NewPort(pt, count))
      ensures NewPort(pt, count).queue == []
    {
      NextSeq(pt.epoch);
    }

    static lemma NextSeq(e: nat)
      ensures (e % SEQ_WRAP + 1) % SEQ_WRAP == (e + 1) % SEQ_WRAP
    {
    }

    // The search loop of `ptcreate`.
    method FindPort() returns (portid: int)
      requires Valid()
      modifies this`ptnextid
      ensures var i := FreePort(world.ports, world.nextid, |world.ports|);
              && portid == (if i == |world.ports| then -1 else i)
              && ptnextid == if i == |world.ports| then world.nextid else Round(i, |world.ports|)
    {
      hide TableOk, Inv, EntryOk, PortOk;
      ShapeOf();
      ghost var n := |world.ports|;
      var i := 0;
      assert Around(world.nextid, 0, n) == world.nextid;
      while i < porttab.Length
        invariant 0 <= i <= n && 0 <= ptnextid < n
        invariant ptnextid == if i == n then world.nextid else Around(world.nextid, i, n)
        invariant FreePort(world.ports, world.nextid, n) == FreePort(world.ports, ptnextid, n - i)
      {
        var ptnum := ptnextid;
        ptnextid := ptnextid + 1;
        if ptnextid >= porttab.Length {
          ptnextid := 0;
        }
        TableStates(ptnum);
        if porttab[ptnum].ptstate == PT_FREE {
          return ptnum;
        }
        i := i + 1;
      }
      return -1;
    }

    /** The checks of `ptdelete` and `ptreset` and the first lines of `_ptclear`: the port goes into limbo under a new
        sequence number. */
    method ClearBegin(portid: int, newstate: PtState) returns (status: Status)
      requires Valid() && newstate in {PT_FREE, PT_ALLOC}
      modifies this`world, this`lost, porttab
      ensures Valid() && world == Step(old(world), if newstate == PT_FREE then Delete(portid) else Reset(portid))
      ensures status == OK <==> Usable(old(world), portid)
    {
      hide TableOk, Inv, EntryOk, PortOk;
      ShapeOf();
      ghost var e := if newstate == PT_FREE then Delete(portid) else Reset(portid);
      StepKeepsIt(e);
      if IsBadPort(portid) {
        return SYSERR;
      }
      Entry(portid);
      EntryFields(portid);
      if porttab[portid].ptstate != PT_ALLOC {
        return SYSERR;
      }
      ghost var w := world;
      LimboEntry(nodes[..], porttab[portid], w.ports[portid], newstate);
      lost := LostAfter(w, lost, e);
      SetEntry(portid, porttab[portid].(ptstate := PT_LIMBO, ptseq := (porttab[portid].ptseq + 1) % SEQ_WRAP), w,
               ClearFrom(w, portid, newstate));
      world := ClearFrom(w, portid, newstate);
      return OK;
    }

    static lemma LimboEntry(nodes: seq<PtNode>, en: PtEntry, pt: Port, next: PtState)
      requires EntryOk(nodes, en, pt) && pt.state == PT_ALLOC && pt.clear == NoClear
      ensures EntryOk(nodes, en.(ptstate := PT_LIMBO, ptseq := (en.ptseq + 1) % SEQ_WRAP),
                      pt.(state := PT_LIMBO, epoch := pt.epoch + 1, clear := Marked(next)))
    {
      hide QueueOk;
      NextSeq(pt.epoch);
    }

    // The walk over the queue, which passes every message to `dispose`.
    method Dispose(portid: int) returns (disposed: seq<int>)
      requires Valid() && !IsBadPort(portid) && world.ports[portid].clear.Marked?
      ensures disposed == Msgs(world.ports[portid].queue)
    {
      hide Inv, SemDelete, Chain, Once, At, EntryOk, Msgs, Nodes, PortOk, QueueOk;
      ClearFacts(portid);
      ghost var q, head, tail := world.ports[portid].queue, porttab[portid].pthead, porttab[portid].pttail;
      QueueAt(portid);
      hide TableOk, Inv, PortOk, EntryOk, QueueOk, At, Nodes, Msgs;
      WalkStart(nodes[..], head, tail, q);
      disposed := [];
      var walk := porttab[portid].pthead;
      ghost var k := 0;
      while walk != NULL
        invariant k <= |q| && walk == At(Nodes(q), k) && |disposed| == k
        invariant walk == NULL <==> k == |q|
        invariant forall j :: 0 <= j < k ==> disposed[j] == q[j].msg
        decreases |q| - k
      {
        WalkStep(nodes[..], head, tail, q, k);
        disposed := disposed + [nodes[walk].ptmsg];
        walk := nodes[walk].ptnext;
        k := k + 1;
      }
      assert disposed == Msgs(q);
    }

    lemma QueueAt(i: int)
      requires Valid() && !IsBadPort(i) && world.ports[i].clear.Marked?
      ensures QueueOk(nodes[..], porttab[i].pthead, porttab[i].pttail, world.ports[i].queue)
    {
      Entry(i);
      ClearFacts(i);
    }

    /** `_ptclear`: disposes of the messages and puts all nodes of the queue on the free list. */
    method ClearQueue(portid: int, newstate: PtState) returns (disposed: seq<int>)
      requires Valid() && !IsBadPort(portid) && world.ports[portid].clear == Marked(newstate)
      modifies this`ptfree, this`world, nodes, porttab
      ensures Valid() && world == Step(old(world), Clearing(portid))
      ensures disposed == Msgs(old(world).ports[portid].queue)
    {
      hide *;
      disposed := Dispose(portid);
      Splice(portid, newstate);
    }

    method Splice(portid: int, newstate: PtState)
      requires Valid() && !IsBadPort(portid) && world.ports[portid].clear == Marked(newstate)
      modifies this`ptfree, this`world, nodes, porttab
      ensures Valid() && world == Step(old(world), Clearing(portid))
    {
      hide Without, Appended, At, HeadTaken, Chain;
      ClearFacts(portid);
      hide TableOk, Inv, EntryOk, PortOk, ClearRest;
      ShapeOf();
      StepKeepsIt(Clearing(portid));
      ghost var w, ns, tab, free := world, nodes[..], porttab[..], ptfree;
      HeadFacts(portid);
      if porttab[portid].pthead != NULL {
        SpliceTable(ns, free, tab, w, portid);
        nodes[porttab[portid].pttail] := nodes[porttab[portid].pttail].(ptnext := ptfree);
        ptfree := porttab[portid].pthead;
        assert nodes[..] == ns[tab[portid].pttail := ns[tab[portid].pttail].(ptnext := free)];
      } else {
        EmptyTable(ns, free, tab, w, portid);
      }
      if newstate == PT_ALLOC {
        porttab[portid] := porttab[portid].(pthead := NULL, pttail := NULL);
      }
      assert porttab[..] == tab[portid := porttab[portid]];
      world := ClearRest(w, portid);
    }

    // What the invariant says about a port that is being cleared.
    lemma ClearFacts(i: int)
      requires Valid() && !IsBadPort(i) && world.ports[i].clear != NoClear
      ensures world.ports[i].state == PT_LIMBO && world.ports[i].clear.next in {PT_FREE, PT_ALLOC}
      ensures !world.ports[i].clear.RecvDone? ==> ClearRest(world, i).nextid == world.nextid
    {
      Entry(i);
    }

    lemma HeadFacts(i: int)
      requires Valid() && !IsBadPort(i) && world.ports[i].clear.Marked?
      ensures porttab[i].pthead == NULL <==> world.ports[i].queue == []
    {
      Entry(i);
      ClearFacts(i);
      QueueTail(nodes[..], porttab[i].pthead, porttab[i].pttail, world.ports[i].queue);
    }

    // Sets the entry of a port whose clear goes one step further.
    method Advance(portid: int, en: PtEntry)
      requires Valid() && !IsBadPort(portid) && world.ports[portid].clear != NoClear && !world.ports[portid].clear.Marked?
      requires !world.ports[portid].clear.RecvDone?
      requires EntryOk(nodes[..], en, ClearRest(world, portid).ports[portid])
      modifies this`world, porttab
      ensures Valid() && world == Step(old(world), Clearing(portid))
    {
      ShapeOf();
      ClearFacts(portid);
      StepKeepsIt(Clearing(portid));
      hide TableOk, Inv, EntryOk, PortOk;
      ghost var w := world;
      SetEntry(portid, en, w, ClearRest(w, portid));
      world := ClearRest(w, portid);
    }

    /** The first of the two `semreset` or `semdelete` calls of `_ptclear`. */
    method ClearSenders(portid: int, newstate: PtState)
      requires Valid() && !IsBadPort(portid) && world.ports[portid].clear == Spliced(newstate)
      modifies this`world, porttab
      ensures Valid() && world == Step(old(world), Clearing(portid))
    {
      Entry(portid);
      var en := porttab[portid];
      hide TableOk, Inv, PortOk, QueueOk;
      Advance(portid, en.(ptssem := if newstate == PT_ALLOC then Sem(en.ptmaxcnt, []) else SemDelete(en.ptssem)));
    }

    method ClearReceivers(portid: int, newstate: PtState)
      requires Valid() && !IsBadPort(portid) && world.ports[portid].clear == SendDone(newstate)
      modifies this`world, porttab
      ensures Valid() && world == Step(old(world), Clearing(portid))
    {
      Entry(portid);
      var en := porttab[portid];
      hide TableOk, Inv, PortOk, QueueOk;
      Advance(portid, en.(ptrsem := if newstate == PT_ALLOC then Sem(0, []) else SemDelete(en.ptrsem)));
    }

    /** The end of `_ptclear`, and of `ptdelete` when the port was deleted. */
    method ClearEnd(portid: int, newstate: PtState)
      requires Valid() && !IsBadPort(portid) && world.ports[portid].clear == RecvDone(newstate)
      modifies this`world, this`ptnextid, porttab
      ensures Valid() && world == Step(old(world), Clearing(portid))
    {
      Entry(portid);
      ClearFacts(portid);
      ShapeOf();
      StepKeepsIt(Clearing(portid));
      ghost var w, w' := world, ClearRest(world, portid);
      EndEntry(nodes[..], porttab[portid], w, portid);
      hide TableOk, Inv, PortOk, EntryOk, QueueOk;
      SetEntry(portid, porttab[portid].(ptstate := newstate), w, w');
      if newstate == PT_FREE {
        ptnextid := portid;
      }
      world := w';
    }

    // All of `_ptclear` behind its first lines, when no other process runs before it returns.
    method PtClear(portid: int, newstate: PtState) returns (disposed: seq<int>)
      requires Valid() && !IsBadPort(portid) && world.ports[portid].clear == Marked(newstate)
      modifies this`ptfree, this`ptnextid, this`world, nodes, porttab
      ensures Valid() && portid < |old(world).ports| && world == Cleared(old(world), portid, newstate)
      ensures disposed == Msgs(old(world).ports[portid].queue)
    {
      hide Inv, TableOk, PortOk, Msgs, Nodes, SemDelete;
      ShapeOf();
      ClearFacts(portid);
      disposed := ClearQueue(portid, newstate);
      ShapeOf();
      ClearSenders(portid, newstate);
      ShapeOf();
      ClearReceivers(portid, newstate);
      ShapeOf();
      ClearEnd(portid, newstate);
    }

    ghost function Cleared(w: World, i: int, next: PtState): World
      requires !BadPort(w, i)
    {
      var pt := w.ports[i];
      var pt' := if next == PT_ALLOC then Port(PT_ALLOC, pt.epoch, pt.maxcnt, [], Sem(pt.maxcnt, []), Sem(0, []), NoClear)
                 else Port(next, pt.epoch, pt.maxcnt, [], SemDelete(pt.ssem), SemDelete(pt.rsem), NoClear);
      World(w.ports[i := pt'], Nodes(pt.queue) + w.free, if next == PT_ALLOC then w.nextid else i, w.pcs)
    }

    /** `ptreset`, when no other process runs before it returns. */
    method PtReset(portid: int) returns (status: Status, disposed: seq<int>)
      requires Valid()
      modifies this`ptfree, this`ptnextid, this`world, this`lost, nodes, porttab
      ensures Valid() && (status == OK <==> Usable(old(world), portid))
      ensures status != OK ==> world == old(world) && disposed == []
      ensures status == OK ==>
        var pt := old(world).ports[portid];
        && world == old(world).(ports := world.ports, free := Nodes(pt.queue) + old(world).free)
        && world.ports == old(world).ports[portid :=
             Port(PT_ALLOC, pt.epoch + 1, pt.maxcnt, [], Sem(pt.maxcnt, []), Sem(0, []), NoClear)]
        && disposed == Msgs(pt.queue)
    {
      hide Inv, TableOk, PortOk, Msgs, Nodes, SemDelete;
      ShapeOf();
      status := ClearBegin(portid, PT_ALLOC);
      if status != OK {
        return status, [];
      }
      ShapeOf();
      disposed := PtClear(portid, PT_ALLOC);
    }

    /** `ptdelete`, when no other process runs before it returns. */
    method PtDelete(portid: int) returns (status: Status, disposed: seq<int>)
      requires Valid()
      modifies this`ptfree, this`ptnextid, this`world, this`lost, nodes, porttab
      ensures Valid() && (status == OK <==> Usable(old(world), portid))
      ensures status != OK ==> world == old(world) && disposed == []
      ensures status == OK ==>
        var pt := old(world).ports[portid];
        && world == World(world.ports, Nodes(pt.queue) + old(world).free, portid, old(world).pcs)
        && world.ports == old(world).ports[portid :=
             Port(PT_FREE, pt.epoch + 1, pt.maxcnt, [], SemDelete(pt.ssem), SemDelete(pt.rsem), NoClear)]
        && disposed == Msgs(pt.queue)
    {
      hide Inv, TableOk, PortOk, Msgs, Nodes, SemDelete;
      ShapeOf();
      status := ClearBegin(portid, PT_FREE);
      if status != OK {
        return status, [];
      }
      ShapeOf();
      disposed := PtClear(portid, PT_FREE);
    }

    static lemma EndEntry(nodes: seq<PtNode>, en: PtEntry, w: World, i: nat)
      requires i < |w.ports| && EntryOk(nodes, en, w.ports[i]) && w.ports[i].clear.RecvDone?
      requires w.ports[i].state == PT_LIMBO && w.ports[i].clear.next in {PT_FREE, PT_ALLOC}
      ensures EntryOk(nodes, en.(ptstate := w.ports[i].clear.next), ClearRest(w, i).ports[i])
    {
      hide QueueOk;
    }

    lemma ShapeOf()
      requires Valid()
      ensures Shape(world) && |world.ports| == porttab.Length && (ptfree == NULL <==> world.free == [])
    {
      if world.free != [] { ChainPop(nodes[..], ptfree, world.free); }
    }

    lemma FreeQueue(i: int)
      requires Valid() && !IsBadPort(i) && world.ports[i].state == PT_FREE
      ensures world.ports[i].queue == []
    {
      Entry(i);
    }

    lemma TableStates(i: int)
      requires TableOk(nodes[..], ptfree, porttab[..], world) && !IsBadPort(i)
      ensures i < |world.ports| && porttab[i].ptstate == world.ports[i].state
    {
      assert porttab[..][i] == porttab[i];
    }

    lemma EntryFields(i: int)
      requires Valid() && !IsBadPort(i)
      ensures var en, pt := porttab[i], world.ports[i];
              && en.ptstate == pt.state && en.ptseq == Ptseq(pt) && en.ptssem == pt.ssem && en.ptrsem == pt.rsem
              && en.ptmaxcnt == pt.maxcnt && (pt.state == PT_ALLOC ==> pt.clear == NoClear)
    {
      Entry(i);
    }

    lemma StepKeepsIt(e: Event)
      requires Valid() && Enabled(world, e)
      ensures HeadSafe(world, e) && Inv(Step(world, e), LostAfter(world, lost, e))
      ensures !e.Create? && !e.Clearing? ==> Step(world, e).nextid == world.nextid
    {
      hide Inv, PortOk, Recent, Revalidates;
      StepKeeps(world, lost, e);
    }
  }
}
