/** The linked lists of the port system (Chapter11/ports.h): message nodes chained into the free list and into the
    queue of each port, and the port table. */
module PortNodes {
  import opened Types
  import opened Lists
  import opened PortState
  import opened PortRuns

  /** A node lives in an array; its address is its index. */
  datatype PtNode = PtNode(ptmsg: int, ptnext: int)

  const NULL := -1

  datatype PtEntry = PtEntry(
    ptstate: PtState,
    ptseq: int,
    ptmaxcnt: int,
    pthead: int,
    pttail: int,
    ptssem: Sem,
    ptrsem: Sem)

  ghost predicate Link(nodes: seq<PtNode>, x: int, next: int) {
    0 <= x < |nodes| && nodes[x].ptnext == next
  }

  /** The chain from `head` is exactly l. */
  ghost predicate Chain(nodes: seq<PtNode>, head: int, l: seq<int>) {
    head == At(l, 0) && forall i :: 0 <= i < |l| ==> Link(nodes, l[i], At(l, i + 1))
  }

  ghost predicate Holds(nodes: seq<PtNode>, it: Item) {
    0 <= it.node < |nodes| && nodes[it.node].ptmsg == it.msg
  }

  /** The queue of a port: its chain, its last node, and its messages. */
  ghost predicate QueueOk(nodes: seq<PtNode>, head: int, tail: int, q: seq<Item>) {
    Chain(nodes, head, Nodes(q)) && tail == At(Nodes(q), |q| - 1) && forall k :: 0 <= k < |q| ==> Holds(nodes, q[k])
  }

  /** Whether the head and tail fields of a port mean anything: a deleted port keeps stale ones. */
  predicate Stale(pt: Port) {
    pt.state == PT_FREE || (pt.clear != NoClear && !pt.clear.Marked? && pt.clear.next == PT_FREE)
  }

  ghost predicate EntryOk(nodes: seq<PtNode>, en: PtEntry, pt: Port) {
    && en.ptstate == pt.state && en.ptseq == Ptseq(pt) && en.ptmaxcnt == pt.maxcnt
    && en.ptssem == pt.ssem && en.ptrsem == pt.rsem
    && (!Stale(pt) ==> QueueOk(nodes, en.pthead, en.pttail, pt.queue))
  }

  /** No node is in two places. */
  ghost predicate Once(w: World) {
    forall x :: multiset(AllNodes(w))[x] <= 1
  }

  ghost predicate TableOk(nodes: seq<PtNode>, ptfree: int, tab: seq<PtEntry>, w: World) {
    && Chain(nodes, ptfree, w.free) && |tab| == |w.ports| && Once(w)
    && forall i :: 0 <= i < |tab| ==> EntryOk(nodes, tab[i], w.ports[i])
  }

  // Chains

  lemma ChainFrame(nodes: seq<PtNode>, nodes': seq<PtNode>, head: int, l: seq<int>)
    requires Chain(nodes, head, l) && |nodes'| == |nodes|
    requires forall x :: x in l && 0 <= x < |nodes| ==> nodes'[x] == nodes[x]
    ensures Chain(nodes', head, l)
  {
    forall i | 0 <= i < |l| ensures Link(nodes', l[i], At(l, i + 1)) {
      assert Link(nodes, l[i], At(l, i + 1));
    }
  }

  lemma QueueFrame(nodes: seq<PtNode>, nodes': seq<PtNode>, head: int, tail: int, q: seq<Item>)
    requires QueueOk(nodes, head, tail, q) && |nodes'| == |nodes|
    requires forall x :: x in Nodes(q) && 0 <= x < |nodes| ==> nodes'[x] == nodes[x]
    ensures QueueOk(nodes', head, tail, q)
  {
    ChainFrame(nodes, nodes', head, Nodes(q));
    forall k | 0 <= k < |q| ensures Holds(nodes', q[k]) {
      assert Holds(nodes, q[k]) && Nodes(q)[k] in Nodes(q);
    }
  }

  lemma ChainPop(nodes: seq<PtNode>, head: int, l: seq<int>)
    requires Chain(nodes, head, l) && l != []
    ensures 0 <= head < |nodes| && head == l[0] && Chain(nodes, nodes[head].ptnext, l[1..])
  {
    assert Link(nodes, l[0], At(l, 1));
    forall i | 0 <= i < |l[1..]| ensures Link(nodes, l[1..][i], At(l[1..], i + 1)) {
      assert Link(nodes, l[i + 1], At(l, i + 2));
    }
  }

  lemma ChainPush(nodes: seq<PtNode>, head: int, l: seq<int>, x: int)
    requires Chain(nodes, head, l) && 0 <= x < |nodes| && nodes[x].ptnext == head
    ensures Chain(nodes, x, [x] + l)
  {
    var m := [x] + l;
    forall i | 0 <= i < |m| ensures Link(nodes, m[i], At(m, i + 1)) {
      if i > 0 { assert Link(nodes, l[i - 1], At(l, i)); }
    }
  }

  /** Linking the end of one chain to the head of another. */
  lemma ChainSplice(nodes: seq<PtNode>, a: int, l: seq<int>, b: int, m: seq<int>, nodes': seq<PtNode>)
    requires Chain(nodes, a, l) && Chain(nodes', b, m) && l != [] && |nodes'| == |nodes|
    requires forall i :: 0 <= i < |l| - 1 && 0 <= l[i] < |nodes| ==> nodes'[l[i]] == nodes[l[i]]
    requires Link(nodes', l[|l| - 1], b)
    ensures Chain(nodes', a, l + m)
  {
    var s := l + m;
    forall i | 0 <= i < |s| ensures Link(nodes', s[i], At(s, i + 1)) {
      if i < |l| - 1 {
        assert Link(nodes, l[i], At(l, i + 1));
      } else if i >= |l| {
        assert Link(nodes', m[i - |l|], At(m, i - |l| + 1));
      }
    }
  }

  // Which nodes are where

  lemma {:induction false} QueuedHas(ports: seq<Port>, i: nat, x: int)
    requires i < |ports|
    ensures multiset(Nodes(ports[i].queue))[x] <= multiset(Queued(ports))[x]
  {
    hide Nodes;
    if i > 0 { QueuedHas(ports[1..], i - 1, x); }
  }

  lemma {:induction false} QueuedHasBoth(ports: seq<Port>, i: nat, j: nat, x: int)
    requires i < j < |ports|
    ensures multiset(Nodes(ports[i].queue))[x] + multiset(Nodes(ports[j].queue))[x] <= multiset(Queued(ports))[x]
  {
    hide Nodes;
    if i > 0 {
      QueuedHasBoth(ports[1..], i - 1, j - 1, x);
    } else {
      QueuedHas(ports[1..], j - 1, x);
    }
  }

  lemma FreeApart(w: World, i: nat)
    requires Once(w) && i < |w.ports|
    ensures forall x :: x in w.free ==> x !in Nodes(w.ports[i].queue)
  {
    forall x | x in w.free
      ensures x !in Nodes(w.ports[i].queue)
    {
      QueuedHas(w.ports, i, x);
      assert multiset(AllNodes(w))[x] == multiset(w.free)[x] + multiset(Queued(w.ports))[x];
      assert x in multiset(w.free);
    }
  }

  lemma QueuesApart(w: World, i: nat, j: nat)
    requires Once(w) && i < |w.ports| && j < |w.ports| && i != j
    ensures forall x :: x in Nodes(w.ports[i].queue) ==> x !in Nodes(w.ports[j].queue)
  {
    forall x | x in Nodes(w.ports[i].queue)
      ensures x !in Nodes(w.ports[j].queue)
    {
      if i < j { QueuedHasBoth(w.ports, i, j, x); } else { QueuedHasBoth(w.ports, j, i, x); }
      assert multiset(AllNodes(w))[x] == multiset(w.free)[x] + multiset(Queued(w.ports))[x];
      assert x in multiset(Nodes(w.ports[i].queue));
    }
  }

  lemma FreeNoDup(w: World)
    requires Once(w)
    ensures NoDup(w.free)
  {
    forall x ensures multiset(w.free)[x] <= 1 {
      assert multiset(AllNodes(w))[x] == multiset(w.free)[x] + multiset(Queued(w.ports))[x];
    }
    OnceNoDup(w.free);
  }

  lemma QueueNoDup(w: World, i: nat)
    requires Once(w) && i < |w.ports|
    ensures NoDup(Nodes(w.ports[i].queue))
  {
    forall x ensures multiset(Nodes(w.ports[i].queue))[x] <= 1 {
      QueuedHas(w.ports, i, x);
      assert multiset(AllNodes(w))[x] == multiset(w.free)[x] + multiset(Queued(w.ports))[x];
    }
    OnceNoDup(Nodes(w.ports[i].queue));
  }

  // Walking a queue

  lemma WalkStart(nodes: seq<PtNode>, head: int, tail: int, q: seq<Item>)
    requires QueueOk(nodes, head, tail, q)
    ensures head == At(Nodes(q), 0) && (head == NULL <==> q == [])
  {
    QueueTail(nodes, head, tail, q);
  }

  lemma WalkStep(nodes: seq<PtNode>, head: int, tail: int, q: seq<Item>, k: nat)
    requires QueueOk(nodes, head, tail, q) && k < |q|
    ensures var x := At(Nodes(q), k);
            && 0 <= x < |nodes| && nodes[x].ptmsg == q[k].msg && nodes[x].ptnext == At(Nodes(q), k + 1)
    ensures At(Nodes(q), k + 1) == NULL <==> k + 1 == |q|
  {
    assert Link(nodes, Nodes(q)[k], At(Nodes(q), k + 1)) && Holds(nodes, q[k]);
    if k + 1 < |q| { assert Link(nodes, Nodes(q)[k + 1], At(Nodes(q), k + 2)); }
  }

  // Append

  /** The nodes after `ptsend` has filled node x and linked it behind the tail. */
  function AppendNode(nodes: seq<PtNode>, tail: int, x: int, msg: int): seq<PtNode>
    requires 0 <= x < |nodes| && (tail != NULL ==> 0 <= tail < |nodes|)
  {
    var nodes1 := nodes[x := PtNode(msg, NULL)];
    if tail == NULL then nodes1 else nodes1[tail := nodes1[tail].(ptnext := x)]
  }

  lemma QueueTail(nodes: seq<PtNode>, head: int, tail: int, q: seq<Item>)
    requires QueueOk(nodes, head, tail, q)
    ensures (tail == NULL <==> q == []) && (head == NULL <==> q == [])
    ensures q != [] ==> 0 <= tail < |nodes| && tail == q[|q| - 1].node && 0 <= head < |nodes| && head == q[0].node
    ensures q != [] ==> nodes[head].ptmsg == q[0].msg
  {
    if q != [] {
      assert Link(nodes, Nodes(q)[|q| - 1], At(Nodes(q), |q|));
      assert Link(nodes, Nodes(q)[0], At(Nodes(q), 1));
      assert Holds(nodes, q[0]);
    }
  }

  lemma AppendQueue(nodes: seq<PtNode>, head: int, tail: int, q: seq<Item>, x: int, msg: int)
    requires QueueOk(nodes, head, tail, q) && 0 <= x < |nodes| && x !in Nodes(q) && NoDup(Nodes(q))
    ensures tail != NULL ==> 0 <= tail < |nodes|
    ensures QueueOk(AppendNode(nodes, tail, x, msg), if tail == NULL then x else head, x, q + [Item(x, msg)])
  {
    QueueTail(nodes, head, tail, q);
    var l, nodes' := Nodes(q), AppendNode(nodes, tail, x, msg);
    NodesAppend(q, [Item(x, msg)]);
    assert Nodes([Item(x, msg)]) == [x];
    assert Chain(nodes', x, [x]);
    if q != [] {
      assert l[|q| - 1] == tail;
      ChainSplice(nodes, head, l, x, [x], nodes');
    } else {
      assert l + [x] == [x];
    }
    forall k | 0 <= k < |q| + 1
      ensures Holds(nodes', (q + [Item(x, msg)])[k])
    {
      if k < |q| { assert Holds(nodes, q[k]) && l[k] in l; }
    }
  }

  /** A table change at one port. */
  lemma TableChanged(nodes: seq<PtNode>, ptfree: int, tab: seq<PtEntry>, w: World, nodes': seq<PtNode>,
                     ptfree': int, i: nat, en: PtEntry, w': World)
    requires TableOk(nodes, ptfree, tab, w) && i < |tab| && |nodes'| == |nodes|
    requires |w'.ports| == |w.ports| && w'.ports == w.ports[i := w'.ports[i]]
    requires multiset(AllNodes(w')) == multiset(AllNodes(w))
    requires Chain(nodes', ptfree', w'.free) && EntryOk(nodes', en, w'.ports[i])
    requires forall x :: 0 <= x < |nodes| && nodes'[x] != nodes[x] ==> x in w.free || x in Nodes(w.ports[i].queue)
    ensures TableOk(nodes', ptfree', tab[i := en], w')
  {
    forall j | 0 <= j < |tab|
      ensures EntryOk(nodes', tab[i := en][j], w'.ports[j])
    {
      if j != i {
        assert w'.ports[j] == w.ports[j];
        FreeApart(w, j);
        QueuesApart(w, i, j);
        EntryFrame(nodes, nodes', tab[j], w.ports[j]);
      }
    }
  }

  lemma EntryFrame(nodes: seq<PtNode>, nodes': seq<PtNode>, en: PtEntry, pt: Port)
    requires EntryOk(nodes, en, pt) && |nodes'| == |nodes|
    requires forall x :: x in Nodes(pt.queue) && 0 <= x < |nodes| ==> nodes'[x] == nodes[x]
    ensures EntryOk(nodes', en, pt)
  {
    if !Stale(pt) { QueueFrame(nodes, nodes', en.pthead, en.pttail, pt.queue); }
  }

  /** The end of `ptsend` on the table. */
  lemma AppendTable(nodes: seq<PtNode>, ptfree: int, tab: seq<PtEntry>, w: World, i: nat, msg: int)
    requires TableOk(nodes, ptfree, tab, w) && i < |tab| && w.ports[i].state == PT_ALLOC && w.ports[i].clear == NoClear
    requires w.free != []
    ensures 0 <= ptfree < |nodes| && (tab[i].pttail != NULL ==> 0 <= tab[i].pttail < |nodes|)
    ensures ptfree == w.free[0]
    ensures var en := tab[i];
            TableOk(AppendNode(nodes, en.pttail, ptfree, msg), nodes[ptfree].ptnext,
                    tab[i := en.(pthead := if en.pttail == NULL then ptfree else en.pthead, pttail := ptfree,
                                 ptrsem := SemSignal(en.ptrsem))],
                    Appended(w, i, msg))
  {
    hide Chain, Nodes, Once, QueueOk;
    var en, pt := tab[i], w.ports[i];
    assert EntryOk(nodes, en, pt);
    ChainPop(nodes, ptfree, w.free);
    FreeApart(w, i);
    QueueNoDup(w, i);
    AppendQueue(nodes, en.pthead, en.pttail, pt.queue, ptfree, msg);
    QueueTail(nodes, en.pthead, en.pttail, pt.queue);
    var nodes' := AppendNode(nodes, en.pttail, ptfree, msg);
    FreeNoDup(w);
    if pt.queue != [] { assert Nodes(pt.queue)[|pt.queue| - 1] in Nodes(pt.queue); }
    ChainFrame(nodes, nodes', nodes[ptfree].ptnext, w.free[1..]);
    PortRuns.AppendNodes(w, i, msg);
    hide Chain, QueueOk, AllNodes, Nodes;
    TableChanged(nodes, ptfree, tab, w, nodes', nodes[ptfree].ptnext, i,
                 en.(pthead := if en.pttail == NULL then ptfree else en.pthead, pttail := ptfree,
                     ptrsem := SemSignal(en.ptrsem)),
                 Appended(w, i, msg));
  }

  // Remove the head

  lemma PopQueue(nodes: seq<PtNode>, head: int, tail: int, q: seq<Item>, nodes': seq<PtNode>)
    requires QueueOk(nodes, head, tail, q) && q != [] && NoDup(Nodes(q)) && |nodes'| == |nodes|
    requires forall x :: 0 <= x < |nodes| && x != head ==> nodes'[x] == nodes[x]
    ensures 0 <= head < |nodes|
    ensures QueueOk(nodes', if head == tail then NULL else nodes[head].ptnext, if head == tail then NULL else tail, q[1..])
  {
    QueueTail(nodes, head, tail, q);
    var l := Nodes(q);
    assert Nodes(q[1..]) == l[1..];
    ChainPop(nodes, head, l);
    forall k | 0 <= k < |q[1..]| ensures Holds(nodes, q[1..][k]) { assert Holds(nodes, q[k + 1]); }
    assert |q| == 1 <==> head == tail by { if |q| > 1 { assert l[0] != l[|q| - 1]; } }
    assert l[1..] == Nodes(q[1..]) && At(l[1..], |q| - 2) == (if |q| == 1 then NULL else tail);
    assert QueueOk(nodes, if head == tail then NULL else nodes[head].ptnext, if head == tail then NULL else tail, q[1..]);
    forall x | x in l[1..] ensures x != head {}
    QueueFrame(nodes, nodes', if head == tail then NULL else nodes[head].ptnext, if head == tail then NULL else tail, q[1..]);
  }

  /** The end of `ptrecv` on the table. */
  lemma HeadTable(nodes: seq<PtNode>, ptfree: int, tab: seq<PtEntry>, w: World, i: nat)
    requires TableOk(nodes, ptfree, tab, w) && i < |tab| && w.ports[i].state == PT_ALLOC && w.ports[i].clear == NoClear
    requires w.ports[i].queue != []
    ensures var en := tab[i];
            && 0 <= en.pthead < |nodes| && nodes[en.pthead].ptmsg == w.ports[i].queue[0].msg
            && TableOk(nodes[en.pthead := nodes[en.pthead].(ptnext := ptfree)], en.pthead,
                       tab[i := en.(pthead := if en.pthead == en.pttail then NULL else nodes[en.pthead].ptnext,
                                    pttail := if en.pthead == en.pttail then NULL else en.pttail,
                                    ptssem := SemSignal(en.ptssem))],
                       HeadTaken(w, i))
  {
    hide Once, SemSignal;
    var en, pt := tab[i], w.ports[i];
    assert EntryOk(nodes, en, pt);
    QueueNoDup(w, i);
    QueueTail(nodes, en.pthead, en.pttail, pt.queue);
    var nodes' := nodes[en.pthead := nodes[en.pthead].(ptnext := ptfree)];
    PopQueue(nodes, en.pthead, en.pttail, pt.queue, nodes');
    FreeApart(w, i);
    assert Nodes(pt.queue)[0] == en.pthead && en.pthead in Nodes(pt.queue);
    ChainFrame(nodes, nodes', ptfree, w.free);
    ChainPush(nodes', ptfree, w.free, en.pthead);
    PortRuns.HeadNodes(w, i);
    hide Chain, QueueOk, AllNodes, Nodes;
    TableChanged(nodes, ptfree, tab, w, nodes', en.pthead, i,
                 en.(pthead := if en.pthead == en.pttail then NULL else nodes[en.pthead].ptnext,
                     pttail := if en.pthead == en.pttail then NULL else en.pttail, ptssem := SemSignal(en.ptssem)),
                 HeadTaken(w, i));
  }

  // Only fields of an entry change

  lemma SemEntry(nodes: seq<PtNode>, en: PtEntry, pt: Port, s: Sem)
    requires EntryOk(nodes, en, pt)
    ensures EntryOk(nodes, en.(ptssem := s), pt.(ssem := s)) && EntryOk(nodes, en.(ptrsem := s), pt.(rsem := s))
  {
    hide QueueOk;
  }

  lemma EntryTable(nodes: seq<PtNode>, ptfree: int, tab: seq<PtEntry>, w: World, i: nat, en: PtEntry, w': World)
    requires TableOk(nodes, ptfree, tab, w) && i < |tab|
    requires |w'.ports| == |w.ports| && w'.ports == w.ports[i := w'.ports[i]]
    requires w'.free == w.free && w'.ports[i].queue == w.ports[i].queue
    requires EntryOk(nodes, en, w'.ports[i])
    ensures TableOk(nodes, ptfree, tab[i := en], w')
  {
    PortRuns.SameQueue(w, w', i);
    hide Chain, QueueOk, AllNodes, Nodes, EntryOk;
    TableChanged(nodes, ptfree, tab, w, nodes, ptfree, i, en, w');
  }

  lemma PcTable(nodes: seq<PtNode>, ptfree: int, tab: seq<PtEntry>, w: World, w': World)
    requires TableOk(nodes, ptfree, tab, w) && w'.ports == w.ports && w'.free == w.free
    ensures TableOk(nodes, ptfree, tab, w')
  {
    PortRuns.SameNodes(w, w');
    hide Chain, EntryOk;
  }

  // The splice of `_ptclear`

  /** A queue that is not empty goes in front of the free list as a whole. */
  lemma SpliceTable(nodes: seq<PtNode>, ptfree: int, tab: seq<PtEntry>, w: World, i: nat)
    requires TableOk(nodes, ptfree, tab, w) && i < |tab| && w.ports[i].state == PT_LIMBO && w.ports[i].clear.Marked?
    requires w.ports[i].clear.next in {PT_FREE, PT_ALLOC}
    requires w.ports[i].queue != []
    ensures var en := tab[i];
            && 0 <= en.pttail < |nodes|
            && TableOk(nodes[en.pttail := nodes[en.pttail].(ptnext := ptfree)], en.pthead,
                       tab[i := if w.ports[i].clear.next == PT_ALLOC then en.(pthead := NULL, pttail := NULL) else en],
                       ClearRest(w, i))
  {
    hide Once, TableOk;
    TableParts(nodes, ptfree, tab, w, i);
    var en, pt := tab[i], w.ports[i];
    QueueTail(nodes, en.pthead, en.pttail, pt.queue);
    SpliceChain(nodes, ptfree, en, w, i);
    PortRuns.ClearNodes(w, i);
    var nodes' := nodes[en.pttail := nodes[en.pttail].(ptnext := ptfree)];
    var en' := if pt.clear.next == PT_ALLOC then en.(pthead := NULL, pttail := NULL) else en;
    SplicedEntry(nodes, nodes', en, w, i);
    hide Chain, QueueOk, AllNodes, Nodes, EntryOk;
    TableChanged(nodes, ptfree, tab, w, nodes', en.pthead, i, en', ClearRest(w, i));
  }

  lemma TableParts(nodes: seq<PtNode>, ptfree: int, tab: seq<PtEntry>, w: World, i: nat)
    requires TableOk(nodes, ptfree, tab, w) && i < |tab|
    ensures i < |w.ports| && EntryOk(nodes, tab[i], w.ports[i]) && Chain(nodes, ptfree, w.free) && Once(w)
  {
  }

  lemma SpliceChain(nodes: seq<PtNode>, ptfree: int, en: PtEntry, w: World, i: nat)
    requires Once(w) && i < |w.ports| && Chain(nodes, ptfree, w.free)
    requires QueueOk(nodes, en.pthead, en.pttail, w.ports[i].queue) && w.ports[i].queue != []
    ensures 0 <= en.pttail < |nodes| && en.pttail in Nodes(w.ports[i].queue)
    ensures Chain(nodes[en.pttail := nodes[en.pttail].(ptnext := ptfree)], en.pthead, Nodes(w.ports[i].queue) + w.free)
  {
    var q := w.ports[i].queue;
    QueueNoDup(w, i);
    QueueTail(nodes, en.pthead, en.pttail, q);
    FreeApart(w, i);
    hide Once;
    var l, nodes' := Nodes(q), nodes[en.pttail := nodes[en.pttail].(ptnext := ptfree)];
    assert l[|l| - 1] == en.pttail && en.pttail in l;
    ChainFrame(nodes, nodes', ptfree, w.free);
    ChainSplice(nodes, en.pthead, l, ptfree, w.free, nodes');
  }

  lemma SplicedEntry(nodes: seq<PtNode>, nodes': seq<PtNode>, en: PtEntry, w: World, i: nat)
    requires i < |w.ports| && EntryOk(nodes, en, w.ports[i]) && w.ports[i].state == PT_LIMBO && w.ports[i].clear.Marked?
    requires w.ports[i].clear.next in {PT_FREE, PT_ALLOC}
    ensures var en' := if w.ports[i].clear.next == PT_ALLOC then en.(pthead := NULL, pttail := NULL) else en;
            EntryOk(nodes', en', ClearRest(w, i).ports[i])
  {
  }

  lemma EmptyTable(nodes: seq<PtNode>, ptfree: int, tab: seq<PtEntry>, w: World, i: nat)
    requires TableOk(nodes, ptfree, tab, w) && i < |tab| && w.ports[i].state == PT_LIMBO && w.ports[i].clear.Marked?
    requires w.ports[i].clear.next in {PT_FREE, PT_ALLOC}
    requires w.ports[i].queue == []
    ensures var en := tab[i];
            TableOk(nodes, ptfree,
                    tab[i := if w.ports[i].clear.next == PT_ALLOC then en.(pthead := NULL, pttail := NULL) else en],
                    ClearRest(w, i))
  {
    var en, pt := tab[i], w.ports[i];
    assert EntryOk(nodes, en, pt);
    assert Nodes(pt.queue) + w.free == w.free;
    var en' := if pt.clear.next == PT_ALLOC then en.(pthead := NULL, pttail := NULL) else en;
    EntryTable(nodes, ptfree, tab, w, i, en', ClearRest(w, i));
  }

  // The state after `ptinit`

  function FreshPorts(n: nat): seq<Port> {
    seq(n, i => Port(PT_FREE, 0, 0, [], Sem(0, []), Sem(0, []), NoClear))
  }

  lemma {:induction false} FreshQueued(ports: seq<Port>)
    requires forall i :: 0 <= i < |ports| ==> ports[i].queue == []
    ensures Queued(ports) == []
  {
    if ports != [] { FreshQueued(ports[1..]); }
  }

  lemma StartTable(nodes: seq<PtNode>, tab: seq<PtEntry>, w: World)
    requires |nodes| > 0 && w.ports == FreshPorts(|tab|) && w.free == seq(|nodes|, i => i)
    requires forall i :: 0 <= i < |nodes| ==> nodes[i].ptnext == if i + 1 < |nodes| then i + 1 else NULL
    requires forall i :: 0 <= i < |tab| ==> tab[i] == PtEntry(PT_FREE, 0, 0, NULL, NULL, Sem(0, []), Sem(0, []))
    ensures TableOk(nodes, 0, tab, w)
  {
    FreshQueued(w.ports);
    assert AllNodes(w) == w.free;
    forall x ensures multiset(w.free)[x] <= 1 { CountUpTo(|nodes|, x); }
    forall i | 0 <= i < |w.free| ensures Link(nodes, w.free[i], At(w.free, i + 1)) {}
  }

  lemma {:induction false} CountUpTo(n: nat, x: int)
    ensures multiset(seq(n, i => i))[x] <= if x < n then 1 else 0
  {
    if n > 0 {
      CountUpTo(n - 1, x);
      assert seq(n, i => i) == seq(n - 1, i => i) + [n - 1];
    }
  }
}
