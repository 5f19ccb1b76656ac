/** Port safety over every run (Chapter 11): the two semaphores of a port always agree with its buffer, so the buffer
    never overflows and a receiver that has passed its test always finds a message. */
module Ports {
  import opened Types
  import opened Lists
  import opened PortState

  ghost predicate SemOk(s: Sem) {
    NoDup(s.waiters) && |s.waiters| == if s.count < 0 then -s.count else 0
  }

  predicate Sends(pcs: seq<Pc>, p: int, i: int, epoch: int) {
    0 <= p < |pcs| && pcs[p].Sending? && pcs[p].port == i && pcs[p].epoch == epoch
  }

  predicate Receives(pcs: seq<Pc>, p: int, i: int, epoch: int) {
    0 <= p < |pcs| && pcs[p].Receiving? && pcs[p].port == i && pcs[p].epoch == epoch
  }

  /** Processes of the current epoch that were released and have not yet continued. */
  ghost function FlightS(pcs: seq<Pc>, i: int, pt: Port): set<int> {
    set p | 0 <= p < |pcs| && Sends(pcs, p, i, pt.epoch) && p !in pt.ssem.waiters
  }

  ghost function FlightR(pcs: seq<Pc>, i: int, pt: Port): set<int> {
    set p | 0 <= p < |pcs| && Receives(pcs, p, i, pt.epoch) && p !in pt.rsem.waiters
  }

  /** Tokens that went down with processes killed in flight since the last clear. */
  datatype Lost = Lost(s: nat, r: nat)

  ghost predicate SenderLaw(pcs: seq<Pc>, i: int, pt: Port, lost: Lost) {
    pt.ssem.count == pt.maxcnt - |pt.queue| - |FlightS(pcs, i, pt)| - |pt.ssem.waiters| - lost.s
  }

  ghost predicate ReceiverLaw(pcs: seq<Pc>, i: int, pt: Port, lost: Lost) {
    pt.rsem.count == |pt.queue| - |FlightR(pcs, i, pt)| - |pt.rsem.waiters| - lost.r
  }

  /** The latest epoch at which a process can have begun a call on a port. */
  function Latest(pt: Port): int {
    if pt.state == PT_ALLOC then pt.epoch else pt.epoch - 1
  }

  ghost predicate Begun(pcs: seq<Pc>, i: int, pt: Port) {
    forall p :: 0 <= p < |pcs| && pcs[p] != Idle && pcs[p].port == i ==> pcs[p].epoch <= Latest(pt)
  }

  ghost predicate WaitersOk(pcs: seq<Pc>, i: int, pt: Port) {
    && (forall p :: p in pt.ssem.waiters ==>
          0 <= p < |pcs| && pcs[p].Sending? && pcs[p].port == i && (pt.state == PT_ALLOC ==> pcs[p].epoch == pt.epoch))
    && (forall p :: p in pt.rsem.waiters ==>
          0 <= p < |pcs| && pcs[p].Receiving? && pcs[p].port == i && (pt.state == PT_ALLOC ==> pcs[p].epoch == pt.epoch))
  }

  /** What `_ptclear` has established so far. */
  ghost predicate ClearOk(pt: Port) {
    && (pt.state == PT_LIMBO <==> pt.clear != NoClear)
    && (pt.clear != NoClear ==> pt.clear.next in {PT_FREE, PT_ALLOC})
    && (pt.clear.Spliced? || pt.clear.SendDone? || pt.clear.RecvDone? || pt.state == PT_FREE ==> pt.queue == [])
    && (pt.clear.SendDone? || pt.clear.RecvDone? ==>
          pt.ssem.waiters == [] && (pt.clear.next == PT_ALLOC ==> pt.ssem.count == pt.maxcnt))
    && (pt.clear.RecvDone? ==> pt.rsem.waiters == [] && (pt.clear.next == PT_ALLOC ==> pt.rsem.count == 0))
    && (pt.state == PT_FREE ==> pt.ssem.waiters == [] && pt.rsem.waiters == [])
  }

  ghost predicate PortOk(pcs: seq<Pc>, i: int, pt: Port, lost: Lost) {
    && SemOk(pt.ssem) && SemOk(pt.rsem) && |pt.queue| <= pt.maxcnt
    && Begun(pcs, i, pt) && WaitersOk(pcs, i, pt) && ClearOk(pt)
    && (pt.state == PT_ALLOC ==> SenderLaw(pcs, i, pt, lost) && ReceiverLaw(pcs, i, pt, lost))
    && (pt.state == PT_LIMBO ==> lost == Lost(0, 0))
  }

  ghost predicate Inv(w: World, lost: seq<Lost>) {
    && Shape(w) && |lost| == |w.ports|
    && forall i :: 0 <= i < |w.ports| ==> PortOk(w.pcs, i, w.ports[i], lost[i])
  }

  /** The tokens lost after one more event: only killing a process in flight loses one; clearing makes good for all. */
  ghost function LostAfter(w: World, lost: seq<Lost>, e: Event): (r: seq<Lost>)
    requires Inv(w, lost) && Enabled(w, e)
    ensures |r| == |lost|
  {
    match e
    case Kill(p) =>
      if !InFlight(w, p) then lost
      else
        var i := w.pcs[p].port;
        if w.pcs[p].epoch != w.ports[i].epoch then lost
        else lost[i := if w.pcs[p].Sending? then lost[i].(s := lost[i].s + 1) else lost[i].(r := lost[i].r + 1)]
    case Create(count) =>
      var i := FreePort(w.ports, w.nextid, |w.ports|);
      if count < 0 || i == |w.ports| then lost else lost[i := Lost(0, 0)]
    case Delete(i) => if Usable(w, i) then lost[i := Lost(0, 0)] else lost
    case Reset(i) => if Usable(w, i) then lost[i := Lost(0, 0)] else lost
    case Send(_, _, _) => lost
    case SendTail(_) => lost
    case Recv(_, _) => lost
    case RecvTail(_) => lost
    case Clearing(_) => lost
  }

  // Framing

  /** A process that is not inside a call on port i before or after a step does not matter to port i. */
  lemma PcElsewhere(pcs: seq<Pc>, p: int, pc: Pc, i: int, pt: Port, lost: Lost)
    requires PortOk(pcs, i, pt, lost) && 0 <= p < |pcs|
    requires pcs[p] == Idle || pcs[p].port != i
    requires pc == Idle || pc.port != i
    ensures PortOk(pcs[p := pc], i, pt, lost)
  {
    var pcs' := pcs[p := pc];
    assert FlightS(pcs', i, pt) == FlightS(pcs, i, pt);
    assert FlightR(pcs', i, pt) == FlightR(pcs, i, pt);
    hide SemOk, ClearOk;
    assert Begun(pcs', i, pt);
    assert WaitersOk(pcs', i, pt);
  }

  /** One port and one process change, and the process is inside a call on no other port. */
  lemma Changed(w: World, lost: seq<Lost>, w': World, lost': seq<Lost>, i: int, p: int)
    requires Inv(w, lost) && !BadPort(w, i) && 0 <= p < |w.pcs|
    requires |w'.ports| == |w.ports| && |w'.pcs| == |w.pcs| && w'.nextid < |w.ports|
    requires w'.ports == w.ports[i := w'.ports[i]] && w'.pcs == w.pcs[p := w'.pcs[p]]
    requires w.pcs[p] == Idle || w.pcs[p].port == i
    requires w'.pcs[p] == Idle || w'.pcs[p].port == i
    requires |lost'| == |lost| && lost' == lost[i := lost'[i]]
    requires PortOk(w'.pcs, i, w'.ports[i], lost'[i])
    ensures Inv(w', lost')
  {
    forall j | 0 <= j < |w'.ports|
      ensures PortOk(w'.pcs, j, w'.ports[j], lost'[j])
    {
      if j != i {
        assert w'.ports[j] == w.ports[j] && lost'[j] == lost[j];
        PcElsewhere(w.pcs, p, w'.pcs[p], j, w.ports[j], lost[j]);
      }
    }
  }

  /** One port changes and no process. */
  lemma PortChanged(w: World, lost: seq<Lost>, w': World, lost': seq<Lost>, i: int)
    requires Inv(w, lost) && !BadPort(w, i)
    requires |w'.ports| == |w.ports| && w'.pcs == w.pcs && w'.nextid < |w.ports|
    requires w'.ports == w.ports[i := w'.ports[i]]
    requires |lost'| == |lost| && lost' == lost[i := lost'[i]]
    requires PortOk(w.pcs, i, w'.ports[i], lost'[i])
    ensures Inv(w', lost')
  {
    forall j | 0 <= j < |w'.ports|
      ensures PortOk(w'.pcs, j, w'.ports[j], lost'[j])
    {
      if j != i { assert w'.ports[j] == w.ports[j] && lost'[j] == lost[j]; }
    }
  }

  // Consequences of the laws

  /** The buffer of an allocated port holds a message for every receiver in flight and every positive count. */
  lemma LawBounds(pcs: seq<Pc>, i: int, pt: Port, lost: Lost)
    requires SemOk(pt.ssem) && SemOk(pt.rsem)
    requires SenderLaw(pcs, i, pt, lost) && ReceiverLaw(pcs, i, pt, lost)
    ensures |pt.queue| + |FlightS(pcs, i, pt)| <= pt.maxcnt
    ensures pt.ssem.count > 0 ==> |pt.queue| + |FlightS(pcs, i, pt)| < pt.maxcnt
    ensures |FlightR(pcs, i, pt)| <= |pt.queue|
    ensures pt.rsem.count > 0 ==> |FlightR(pcs, i, pt)| < |pt.queue|
  {
  }

  lemma InSet(s: set<int>, p: int)
    requires p in s
    ensures |s| > 0
  {
  }

  lemma Bigger(s: set<int>, t: set<int>, p: int)
    requires p !in s && t == s + {p}
    ensures |t| == |s| + 1
  {
  }

  lemma {:induction false} SameSeq(e: int, d: int)
    requires 0 <= d - e < SEQ_WRAP
    ensures d % SEQ_WRAP == e % SEQ_WRAP <==> d == e
  {
  }

  // Sending

  // A token is taken from the sender semaphore and a message added; the receiver semaphore is signalled.
  lemma SignalledR(pcs: seq<Pc>, i: int, pt: Port)
    requires SemOk(pt.rsem) && WaitersOk(pcs, i, pt) && pt.state == PT_ALLOC
    ensures var s := SemSignal(pt.rsem);
            && SemOk(s)
            && |FlightR(pcs, i, pt.(rsem := s))| + |s.waiters| == |FlightR(pcs, i, pt)| + |pt.rsem.waiters|
            && (forall p :: p in s.waiters ==> p in pt.rsem.waiters)
  {
    var s := SemSignal(pt.rsem);
    if pt.rsem.count < 0 {
      var p := pt.rsem.waiters[0];
      NoDupTail(pt.rsem.waiters);
      assert p in pt.rsem.waiters;
      assert pt.rsem.waiters == [p] + s.waiters;
      assert Receives(pcs, p, i, pt.epoch);
      Bigger(FlightR(pcs, i, pt), FlightR(pcs, i, pt.(rsem := s)), p);
    } else {
      assert FlightR(pcs, i, pt.(rsem := s)) == FlightR(pcs, i, pt);
    }
  }

  lemma SignalledS(pcs: seq<Pc>, i: int, pt: Port)
    requires SemOk(pt.ssem) && WaitersOk(pcs, i, pt) && pt.state == PT_ALLOC
    ensures var s := SemSignal(pt.ssem);
            && SemOk(s)
            && |FlightS(pcs, i, pt.(ssem := s))| + |s.waiters| == |FlightS(pcs, i, pt)| + |pt.ssem.waiters|
            && (forall p :: p in s.waiters ==> p in pt.ssem.waiters)
  {
    var s := SemSignal(pt.ssem);
    if pt.ssem.count < 0 {
      var p := pt.ssem.waiters[0];
      NoDupTail(pt.ssem.waiters);
      assert p in pt.ssem.waiters;
      assert pt.ssem.waiters == [p] + s.waiters;
      assert Sends(pcs, p, i, pt.epoch);
      Bigger(FlightS(pcs, i, pt), FlightS(pcs, i, pt.(ssem := s)), p);
    } else {
      assert FlightS(pcs, i, pt.(ssem := s)) == FlightS(pcs, i, pt);
    }
  }

  // The two flights look only at the epoch and at one semaphore each.
  lemma FlightsSame(pcs: seq<Pc>, i: int, pt: Port, pt': Port)
    requires pt'.epoch == pt.epoch
    ensures pt'.ssem.waiters == pt.ssem.waiters ==> FlightS(pcs, i, pt') == FlightS(pcs, i, pt)
    ensures pt'.rsem.waiters == pt.rsem.waiters ==> FlightR(pcs, i, pt') == FlightR(pcs, i, pt)
  {
  }

  /** The end of `ptsend` restores the sender law, which was short by one message, and keeps the receiver law. */
  lemma AppendOk(pcs: seq<Pc>, i: int, pt: Port, lost: Lost, item: Item)
    requires PortOk(pcs, i, pt, lost.(s := lost.s + 1)) && pt.state == PT_ALLOC
    ensures PortOk(pcs, i, pt.(queue := pt.queue + [item], rsem := SemSignal(pt.rsem)), lost)
  {
    var s := SemSignal(pt.rsem);
    var pt' := pt.(queue := pt.queue + [item], rsem := s);
    SignalledR(pcs, i, pt);
    FlightsSame(pcs, i, pt, pt');
    FlightsSame(pcs, i, pt.(rsem := s), pt');
    LawBounds(pcs, i, pt, lost.(s := lost.s + 1));
    hide FlightS, FlightR, SemOk, SemSignal;
    assert SenderLaw(pcs, i, pt', lost) && ReceiverLaw(pcs, i, pt', lost);
    LawBounds(pcs, i, pt', lost);
  }

  /** The end of `ptrecv`. */
  lemma HeadOk(pcs: seq<Pc>, i: int, pt: Port, lost: Lost)
    requires PortOk(pcs, i, pt, lost.(r := lost.r + 1)) && pt.state == PT_ALLOC && pt.queue != []
    ensures PortOk(pcs, i, pt.(queue := pt.queue[1..], ssem := SemSignal(pt.ssem)), lost)
  {
    var s := SemSignal(pt.ssem);
    var pt' := pt.(queue := pt.queue[1..], ssem := s);
    SignalledS(pcs, i, pt);
    FlightsSame(pcs, i, pt, pt');
    FlightsSame(pcs, i, pt.(ssem := s), pt');
    hide FlightS, FlightR, SemOk, SemSignal;
    assert SenderLaw(pcs, i, pt', lost) && ReceiverLaw(pcs, i, pt', lost);
  }

  // A process leaves its call.

  lemma LeaveS(pcs: seq<Pc>, i: int, pt: Port, lost: Lost, p: int)
    requires PortOk(pcs, i, pt, lost) && 0 <= p < |pcs| && pcs[p].Sending? && pcs[p].port == i && p !in pt.ssem.waiters
    ensures PortOk(pcs[p := Idle], i, pt, if pcs[p].epoch == pt.epoch then lost.(s := lost.s + 1) else lost)
  {
    assert pcs[p].epoch <= Latest(pt);
    hide FlightS, FlightR, SemOk, ClearOk;
    FlightLeavesS(pcs, i, pt, p);
    LeaveWaiters(pcs, i, pt, p);
  }

  lemma FlightLeavesS(pcs: seq<Pc>, i: int, pt: Port, p: int)
    requires 0 <= p < |pcs| && pcs[p].Sending? && pcs[p].port == i && p !in pt.ssem.waiters
    ensures |FlightS(pcs[p := Idle], i, pt)| == |FlightS(pcs, i, pt)| - if pcs[p].epoch == pt.epoch then 1 else 0
    ensures FlightR(pcs[p := Idle], i, pt) == FlightR(pcs, i, pt)
  {
    var pcs' := pcs[p := Idle];
    if pcs[p].epoch == pt.epoch {
      assert p in FlightS(pcs, i, pt);
      Bigger(FlightS(pcs', i, pt), FlightS(pcs, i, pt), p);
    } else {
      assert FlightS(pcs', i, pt) == FlightS(pcs, i, pt);
    }
  }

  lemma LeaveR(pcs: seq<Pc>, i: int, pt: Port, lost: Lost, p: int)
    requires PortOk(pcs, i, pt, lost) && 0 <= p < |pcs| && pcs[p].Receiving? && pcs[p].port == i && p !in pt.rsem.waiters
    ensures PortOk(pcs[p := Idle], i, pt, if pcs[p].epoch == pt.epoch then lost.(r := lost.r + 1) else lost)
  {
    assert pcs[p].epoch <= Latest(pt);
    hide FlightS, FlightR, SemOk, ClearOk;
    FlightLeavesR(pcs, i, pt, p);
    LeaveWaiters(pcs, i, pt, p);
  }

  lemma FlightLeavesR(pcs: seq<Pc>, i: int, pt: Port, p: int)
    requires 0 <= p < |pcs| && pcs[p].Receiving? && pcs[p].port == i && p !in pt.rsem.waiters
    ensures |FlightR(pcs[p := Idle], i, pt)| == |FlightR(pcs, i, pt)| - if pcs[p].epoch == pt.epoch then 1 else 0
    ensures FlightS(pcs[p := Idle], i, pt) == FlightS(pcs, i, pt)
  {
    var pcs' := pcs[p := Idle];
    if pcs[p].epoch == pt.epoch {
      assert p in FlightR(pcs, i, pt);
      Bigger(FlightR(pcs', i, pt), FlightR(pcs, i, pt), p);
    } else {
      assert FlightR(pcs', i, pt) == FlightR(pcs, i, pt);
    }
  }

  lemma LeaveWaiters(pcs: seq<Pc>, i: int, pt: Port, p: int)
    requires Begun(pcs, i, pt) && WaitersOk(pcs, i, pt) && 0 <= p < |pcs| && pcs[p] != Idle
    requires if pcs[p].Sending? then p !in pt.ssem.waiters else p !in pt.rsem.waiters
    ensures Begun(pcs[p := Idle], i, pt) && WaitersOk(pcs[p := Idle], i, pt)
  {
  }

  // A process blocks.

  lemma BlockS(pcs: seq<Pc>, i: int, pt: Port, lost: Lost, p: int, msg: int)
    requires PortOk(pcs, i, pt, lost) && 0 <= p < |pcs| && pcs[p] == Idle && pt.state == PT_ALLOC && pt.ssem.count <= 0
    ensures PortOk(pcs[p := Sending(i, pt.epoch, msg)], i, pt.(ssem := SemWait(pt.ssem, p)), lost)
  {
    var pcs', pt' := pcs[p := Sending(i, pt.epoch, msg)], pt.(ssem := SemWait(pt.ssem, p));
    assert p !in pt.ssem.waiters && p !in pt.rsem.waiters;
    assert FlightS(pcs', i, pt') == FlightS(pcs, i, pt);
    assert FlightR(pcs', i, pt') == FlightR(pcs, i, pt);
    assert SemOk(pt'.ssem);
    hide FlightS, FlightR, SemOk;
    assert WaitersOk(pcs', i, pt');
  }

  lemma BlockR(pcs: seq<Pc>, i: int, pt: Port, lost: Lost, p: int)
    requires PortOk(pcs, i, pt, lost) && 0 <= p < |pcs| && pcs[p] == Idle && pt.state == PT_ALLOC && pt.rsem.count <= 0
    ensures PortOk(pcs[p := Receiving(i, pt.epoch)], i, pt.(rsem := SemWait(pt.rsem, p)), lost)
  {
    var pcs', pt' := pcs[p := Receiving(i, pt.epoch)], pt.(rsem := SemWait(pt.rsem, p));
    assert p !in pt.ssem.waiters && p !in pt.rsem.waiters;
    assert FlightS(pcs', i, pt') == FlightS(pcs, i, pt);
    assert FlightR(pcs', i, pt') == FlightR(pcs, i, pt);
    assert SemOk(pt'.rsem);
    hide FlightS, FlightR, SemOk;
    assert WaitersOk(pcs', i, pt');
  }

  // A process takes a token without blocking.

  lemma PassS(pcs: seq<Pc>, i: int, pt: Port, lost: Lost, p: int)
    requires PortOk(pcs, i, pt, lost) && pt.state == PT_ALLOC && pt.ssem.count > 0
    ensures PortOk(pcs, i, pt.(ssem := SemWait(pt.ssem, p)), lost.(s := lost.s + 1))
  {
    FlightsSame(pcs, i, pt, pt.(ssem := SemWait(pt.ssem, p)));
    hide FlightS, FlightR;
  }

  lemma PassR(pcs: seq<Pc>, i: int, pt: Port, lost: Lost, p: int)
    requires PortOk(pcs, i, pt, lost) && pt.state == PT_ALLOC && pt.rsem.count > 0
    ensures PortOk(pcs, i, pt.(rsem := SemWait(pt.rsem, p)), lost.(r := lost.r + 1))
  {
    FlightsSame(pcs, i, pt, pt.(rsem := SemWait(pt.rsem, p)));
    hide FlightS, FlightR;
  }

  // Every step keeps the invariant

  lemma SendKeeps(w: World, lost: seq<Lost>, p: int, i: int, msg: int)
    requires Inv(w, lost) && Enabled(w, Send(p, i, msg))
    ensures Inv(SendFrom(w, p, i, msg), lost)
  {
    hide PortOk, SemWait, SemSignal;
    if Usable(w, i) {
      var pt := w.ports[i];
      if pt.ssem.count - 1 < 0 {
        BlockS(w.pcs, i, pt, lost[i], p, msg);
        Changed(w, lost, SendFrom(w, p, i, msg), lost, i, p);
      } else {
        PassS(w.pcs, i, pt, lost[i], p);
        AppendOk(w.pcs, i, pt.(ssem := SemWait(pt.ssem, p)), lost[i], Item(w.free[0], msg));
        PortChanged(w, lost, SendFrom(w, p, i, msg), lost, i);
      }
    }
  }

  // The test behind `wait` passes exactly for processes that began in the current epoch.
  lemma RevalidatesIff(pcs: seq<Pc>, i: int, pt: Port, lost: Lost, p: int)
    requires PortOk(pcs, i, pt, lost) && 0 <= p < |pcs| && pcs[p] != Idle && pcs[p].port == i
    requires pt.epoch - pcs[p].epoch < SEQ_WRAP
    ensures Revalidates(pt, pcs[p].epoch) <==> pcs[p].epoch == pt.epoch
  {
    assert pcs[p].epoch <= Latest(pt);
    SameSeq(pcs[p].epoch, pt.epoch);
  }

  lemma SendTailKeeps(w: World, lost: seq<Lost>, p: int)
    requires Inv(w, lost) && Enabled(w, SendTail(p))
    ensures Inv(SendRest(w, p), lost)
  {
    hide PortOk, SemSignal, Revalidates;
    var i := w.pcs[p].port;
    var pt := w.ports[i];
    RevalidatesIff(w.pcs, i, pt, lost[i], p);
    LeaveS(w.pcs, i, pt, lost[i], p);
    if Revalidates(pt, w.pcs[p].epoch) {
      RevalidatesAlloc(pt, w.pcs[p].epoch);
      AppendOk(w.pcs[p := Idle], i, pt, lost[i], Item(w.free[0], w.pcs[p].msg));
    }
    Changed(w, lost, SendRest(w, p), lost, i, p);
  }

  lemma RevalidatesAlloc(pt: Port, epoch: nat)
    requires Revalidates(pt, epoch)
    ensures pt.state == PT_ALLOC
  {
  }

  /** In every state that satisfies the invariant, a receiver that goes on to the head of the buffer finds a message. */
  lemma HeadFound(w: World, lost: seq<Lost>, e: Event)
    requires Inv(w, lost) && Enabled(w, e)
    ensures HeadSafe(w, e)
  {
    hide SemOk, WaitersOk, ClearOk, FlightS;
    match e
    case Recv(p, i) =>
      if Usable(w, i) && w.ports[i].rsem.count > 0 {
        assert PortOk(w.pcs, i, w.ports[i], lost[i]);
        LawBounds(w.pcs, i, w.ports[i], lost[i]);
      }
    case RecvTail(p) =>
      var i := w.pcs[p].port;
      var pt := w.ports[i];
      if Revalidates(pt, w.pcs[p].epoch) {
        assert PortOk(w.pcs, i, pt, lost[i]);
        RevalidatesIff(w.pcs, i, pt, lost[i], p);
        InSet(FlightR(w.pcs, i, pt), p);
        LawBounds(w.pcs, i, pt, lost[i]);
      }
    case Send(_, _, _) =>
    case SendTail(_) =>
    case Create(_) =>
    case Delete(_) =>
    case Reset(_) =>
    case Clearing(_) =>
    case Kill(_) =>
  }

  lemma RecvKeeps(w: World, lost: seq<Lost>, p: int, i: int)
    requires Inv(w, lost) && Enabled(w, Recv(p, i))
    ensures Inv(RecvFrom(w, p, i), lost)
  {
    HeadFound(w, lost, Recv(p, i));
    hide PortOk, SemWait, SemSignal;
    if Usable(w, i) {
      var pt := w.ports[i];
      if pt.rsem.count - 1 < 0 {
        BlockR(w.pcs, i, pt, lost[i], p);
        Changed(w, lost, RecvFrom(w, p, i), lost, i, p);
      } else {
        PassR(w.pcs, i, pt, lost[i], p);
        HeadOk(w.pcs, i, pt.(rsem := SemWait(pt.rsem, p)), lost[i]);
        PortChanged(w, lost, RecvFrom(w, p, i), lost, i);
      }
    }
  }

  lemma RecvTailKeeps(w: World, lost: seq<Lost>, p: int)
    requires Inv(w, lost) && Enabled(w, RecvTail(p))
    ensures Inv(RecvRest(w, p), lost)
  {
    HeadFound(w, lost, RecvTail(p));
    hide PortOk, SemSignal, Revalidates;
    var i := w.pcs[p].port;
    var pt := w.ports[i];
    RevalidatesIff(w.pcs, i, pt, lost[i], p);
    LeaveR(w.pcs, i, pt, lost[i], p);
    if Revalidates(pt, w.pcs[p].epoch) {
      RevalidatesAlloc(pt, w.pcs[p].epoch);
      HeadOk(w.pcs[p := Idle], i, pt, lost[i]);
    }
    Changed(w, lost, RecvRest(w, p), lost, i, p);
  }

  // A fresh epoch has no processes in flight.
  lemma NoFlight(pcs: seq<Pc>, i: int, pt: Port, pt': Port)
    requires Begun(pcs, i, pt) && pt'.epoch > Latest(pt)
    ensures FlightS(pcs, i, pt') == {} && FlightR(pcs, i, pt') == {}
  {
    forall p | 0 <= p < |pcs| && pcs[p] != Idle && pcs[p].port == i
      ensures pcs[p].epoch != pt'.epoch
    {
    }
  }

  lemma CreateKeeps(w: World, lost: seq<Lost>, count: int)
    requires Inv(w, lost) && Enabled(w, Create(count))
    ensures Inv(Created(w, count), LostAfter(w, lost, Create(count)))
  {
    var i := FreePort(w.ports, w.nextid, |w.ports|);
    if count >= 0 && i < |w.ports| {
      assert PortOk(w.pcs, i, w.ports[i], lost[i]);
      NewPortOk(w.pcs, i, w.ports[i], lost[i], count);
      hide PortOk;
      PortChanged(w, lost, Created(w, count), LostAfter(w, lost, Create(count)), i);
    }
  }

  lemma NewPortOk(pcs: seq<Pc>, i: int, pt: Port, lost: Lost, count: int)
    requires PortOk(pcs, i, pt, lost) && pt.state == PT_FREE && 0 <= count < UINT16_WRAP
    ensures PortOk(pcs, i, NewPort(pt, count), Lost(0, 0))
  {
    NoFlight(pcs, i, pt, NewPort(pt, count));
    hide FlightS, FlightR;
  }

  lemma ClearFromKeeps(w: World, lost: seq<Lost>, i: int, next: PtState)
    requires Inv(w, lost) && next in {PT_FREE, PT_ALLOC}
    ensures Inv(ClearFrom(w, i, next), if Usable(w, i) then lost[i := Lost(0, 0)] else lost)
  {
    if Usable(w, i) {
      assert PortOk(w.pcs, i, w.ports[i], lost[i]);
      var w', lost' := ClearFrom(w, i, next), lost[i := Lost(0, 0)];
      assert PortOk(w.pcs, i, w'.ports[i], lost'[i]);
      hide PortOk;
      PortChanged(w, lost, w', lost', i);
    }
  }

  lemma ClearingKeeps(w: World, lost: seq<Lost>, i: int)
    requires Inv(w, lost) && !BadPort(w, i)
    ensures Inv(ClearRest(w, i), lost)
  {
    var pt := w.ports[i];
    assert PortOk(w.pcs, i, pt, lost[i]);
    if pt.clear != NoClear {
      ClearedOk(w, i, lost[i]);
      hide PortOk;
      PortChanged(w, lost, ClearRest(w, i), lost, i);
    }
  }

  lemma ClearedOk(w: World, i: int, lost: Lost)
    requires !BadPort(w, i) && PortOk(w.pcs, i, w.ports[i], lost) && w.ports[i].clear != NoClear
    ensures PortOk(w.pcs, i, ClearRest(w, i).ports[i], lost)
  {
    var pt, pt' := w.ports[i], ClearRest(w, i).ports[i];
    NoFlight(w.pcs, i, pt, pt');
    hide FlightS, FlightR;
  }

  // Killing

  lemma WithdrawOk(s: Sem, p: int)
    requires SemOk(s) && p in s.waiters
    ensures SemOk(SemWithdraw(s, p)) && |SemWithdraw(s, p).waiters| == |s.waiters| - 1
    ensures forall x :: x in SemWithdraw(s, p).waiters <==> x in s.waiters && x != p
  {
    WithoutMembers(s.waiters, p);
  }

  lemma KillWaiterS(pcs: seq<Pc>, i: int, pt: Port, lost: Lost, p: int)
    requires PortOk(pcs, i, pt, lost) && 0 <= p < |pcs| && pcs[p].Sending? && p in pt.ssem.waiters
    ensures PortOk(pcs[p := Idle], i, pt.(ssem := SemWithdraw(pt.ssem, p)), lost)
  {
    var pcs', pt' := pcs[p := Idle], pt.(ssem := SemWithdraw(pt.ssem, p));
    WithdrawOk(pt.ssem, p);
    assert p !in pt.rsem.waiters;
    assert pt.ssem.waiters != [];
    hide SemWithdraw, SemOk;
    assert FlightS(pcs', i, pt') == FlightS(pcs, i, pt);
    assert FlightR(pcs', i, pt') == FlightR(pcs, i, pt);
    hide FlightS, FlightR;
    assert pt'.ssem.count == pt.ssem.count + 1 by { WithdrawCount(pt.ssem, p); }
    assert WaitersOk(pcs', i, pt');
  }

  lemma KillWaiterR(pcs: seq<Pc>, i: int, pt: Port, lost: Lost, p: int)
    requires PortOk(pcs, i, pt, lost) && 0 <= p < |pcs| && pcs[p].Receiving? && p in pt.rsem.waiters
    ensures PortOk(pcs[p := Idle], i, pt.(rsem := SemWithdraw(pt.rsem, p)), lost)
  {
    var pcs', pt' := pcs[p := Idle], pt.(rsem := SemWithdraw(pt.rsem, p));
    WithdrawOk(pt.rsem, p);
    assert p !in pt.ssem.waiters;
    assert pt.rsem.waiters != [];
    hide SemWithdraw, SemOk;
    assert FlightS(pcs', i, pt') == FlightS(pcs, i, pt);
    assert FlightR(pcs', i, pt') == FlightR(pcs, i, pt);
    hide FlightS, FlightR;
    assert pt'.rsem.count == pt.rsem.count + 1 by { WithdrawCount(pt.rsem, p); }
    assert WaitersOk(pcs', i, pt');
  }

  lemma WithdrawCount(s: Sem, p: int)
    ensures SemWithdraw(s, p).count == s.count + 1
  {
  }

  lemma KillKeeps(w: World, lost: seq<Lost>, p: int)
    requires Inv(w, lost) && Enabled(w, Kill(p))
    ensures Inv(Killed(w, p), LostAfter(w, lost, Kill(p)))
  {
    hide PortOk, SemWithdraw;
    if w.pcs[p] != Idle {
      var i := w.pcs[p].port;
      var pt := w.ports[i];
      assert PortOk(w.pcs, i, pt, lost[i]);
      if w.pcs[p].Sending? {
        if p in pt.ssem.waiters { KillWaiterS(w.pcs, i, pt, lost[i], p); } else { LeaveS(w.pcs, i, pt, lost[i], p); }
      } else {
        if p in pt.rsem.waiters { KillWaiterR(w.pcs, i, pt, lost[i], p); } else { LeaveR(w.pcs, i, pt, lost[i], p); }
      }
      Changed(w, lost, Killed(w, p), LostAfter(w, lost, Kill(p)), i, p);
    }
  }

  /** Every step of every process, in any interleaving, keeps the invariant, and no step follows a NULL head. */
  lemma StepKeeps(w: World, lost: seq<Lost>, e: Event)
    requires Inv(w, lost) && Enabled(w, e)
    ensures HeadSafe(w, e) && Inv(Step(w, e), LostAfter(w, lost, e))
  {
    HeadFound(w, lost, e);
    hide Inv, HeadSafe, PortOk, SendFrom, SendRest, RecvFrom, RecvRest, Created, ClearFrom, ClearRest, Killed;
    match e
    case Send(p, i, msg) => SendKeeps(w, lost, p, i, msg);
    case SendTail(p) => SendTailKeeps(w, lost, p);
    case Recv(p, i) => RecvKeeps(w, lost, p, i);
    case RecvTail(p) => RecvTailKeeps(w, lost, p);
    case Create(count) => CreateKeeps(w, lost, count);
    case Delete(i) => ClearFromKeeps(w, lost, i, PT_FREE);
    case Reset(i) => ClearFromKeeps(w, lost, i, PT_ALLOC);
    case Clearing(i) => ClearingKeeps(w, lost, i);
    case Kill(p) => KillKeeps(w, lost, p);
  }
}
