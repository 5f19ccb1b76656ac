/** Ports (Chapter 11) as values: the bounded buffers, the processes inside `ptsend` and `ptrecv`, and what each call
    does between two context switches. */
module PortState {
  import opened Types
  import opened Lists

  const SEQ_WRAP := 0x1_0000_0000
  const UINT16_WRAP := 0x1_0000

  /** A semaphore: its count and the processes on its queue. */
  datatype Sem = Sem(count: int, waiters: seq<int>)

  function SemWait(s: Sem, p: int): Sem {
    Sem(s.count - 1, if s.count - 1 < 0 then s.waiters + [p] else s.waiters)
  }

  function SemSignal(s: Sem): Sem {
    Sem(s.count + 1, if s.count < 0 && s.waiters != [] then s.waiters[1..] else s.waiters)
  }

  /** What `kill` does to the semaphore on which its victim waits. */
  function SemWithdraw(s: Sem, p: int): Sem {
    Sem(s.count + 1, Without(s.waiters, p))
  }

  /** `semdelete` leaves one increment too many behind. */
  function SemDelete(s: Sem): Sem {
    Sem((if s.count < 0 then 0 else s.count) + 1, [])
  }

  datatype PtState = PT_FREE | PT_LIMBO | PT_ALLOC

  /** A message node and the message in it. */
  datatype Item = Item(node: int, msg: int)

  /** How far `_ptclear` has come with a port; `next` is the state that it will leave. */
  datatype Clear =
    | NoClear
    | Marked(next: PtState) | Spliced(next: PtState) | SendDone(next: PtState) | RecvDone(next: PtState)

  /** `epoch` counts the increments of the sequence number since `ptinit`: `ptseq` is epoch modulo 2^32. */
  datatype Port = Port(state: PtState, epoch: nat, maxcnt: int, queue: seq<Item>, ssem: Sem, rsem: Sem, clear: Clear)

  function Ptseq(pt: Port): int {
    pt.epoch % SEQ_WRAP
  }

  /** A process between its call of `wait` in `ptsend` or `ptrecv` and the code behind it; `epoch` is that of its port
      when the call began. It is blocked while it is on the semaphore's queue, and in flight from its release on. */
  datatype Pc = Idle | Sending(port: int, epoch: nat, msg: int) | Receiving(port: int, epoch: nat)

  datatype World = World(ports: seq<Port>, free: seq<int>, nextid: nat, pcs: seq<Pc>)

  datatype Event =
    | Send(pid: int, port: int, msg: int) | SendTail(pid: int)
    | Recv(pid: int, port: int) | RecvTail(pid: int)
    | Create(count: int) | Delete(port: int) | Reset(port: int) | Clearing(port: int)
    | Kill(pid: int)

  predicate BadPort(w: World, i: int) {
    i < 0 || i >= |w.ports|
  }

  predicate Usable(w: World, i: int) {
    !BadPort(w, i) && w.ports[i].state == PT_ALLOC
  }

  /** The test behind `wait`: the port is allocated and has the sequence number that was read before. */
  predicate Revalidates(pt: Port, epoch: nat) {
    pt.state == PT_ALLOC && Ptseq(pt) == epoch % SEQ_WRAP
  }

  function WithPort(w: World, i: int, pt: Port): World
    requires !BadPort(w, i)
  {
    w.(ports := w.ports[i := pt])
  }

  function WithPc(w: World, p: int, pc: Pc): World
    requires 0 <= p < |w.pcs|
  {
    w.(pcs := w.pcs[p := pc])
  }

  /** The end of `ptsend`: a free node with the message goes to the tail, and the receiver semaphore is signalled. */
  function Appended(w: World, i: int, msg: int): World
    requires !BadPort(w, i)
  {
    var pt := w.ports[i];
    if w.free == [] then w
    else WithPort(w, i, pt.(queue := pt.queue + [Item(w.free[0], msg)], rsem := SemSignal(pt.rsem))).(free := w.free[1..])
  }

  /** The end of `ptrecv`: the head node goes back to the free list, and the sender semaphore is signalled. */
  function HeadTaken(w: World, i: int): World
    requires !BadPort(w, i)
  {
    var pt := w.ports[i];
    if pt.queue == [] then w
    else WithPort(w, i, pt.(queue := pt.queue[1..], ssem := SemSignal(pt.ssem))).(free := [pt.queue[0].node] + w.free)
  }

  function SendFrom(w: World, p: int, i: int, msg: int): World
    requires 0 <= p < |w.pcs|
  {
    if !Usable(w, i) then w
    else
      var pt := w.ports[i];
      var w1 := WithPort(w, i, pt.(ssem := SemWait(pt.ssem, p)));
      if pt.ssem.count - 1 < 0 then WithPc(w1, p, Sending(i, pt.epoch, msg)) else Appended(w1, i, msg)
  }

  function SendRest(w: World, p: int): World
    requires 0 <= p < |w.pcs| && w.pcs[p].Sending? && !BadPort(w, w.pcs[p].port)
  {
    var pc, w1 := w.pcs[p], WithPc(w, p, Idle);
    if !Revalidates(w.ports[pc.port], pc.epoch) then w1 else Appended(w1, pc.port, pc.msg)
  }

  function RecvFrom(w: World, p: int, i: int): World
    requires 0 <= p < |w.pcs|
  {
    if !Usable(w, i) then w
    else
      var pt := w.ports[i];
      var w1 := WithPort(w, i, pt.(rsem := SemWait(pt.rsem, p)));
      if pt.rsem.count - 1 < 0 then WithPc(w1, p, Receiving(i, pt.epoch)) else HeadTaken(w1, i)
  }

  function RecvRest(w: World, p: int): World
    requires 0 <= p < |w.pcs| && w.pcs[p].Receiving? && !BadPort(w, w.pcs[p].port)
  {
    var pc, w1 := w.pcs[p], WithPc(w, p, Idle);
    if !Revalidates(w.ports[pc.port], pc.epoch) then w1 else HeadTaken(w1, pc.port)
  }

  // Creation

  /** The first free port among `tries` entries from `from` on, wrapping around; |ports| if there is none. */
  function FreePort(ports: seq<Port>, from: nat, tries: nat): (i: nat)
    requires from < |ports|
    ensures i <= |ports| && (i < |ports| ==> ports[i].state == PT_FREE)
    decreases tries
  {
    if tries == 0 then |ports|
    else if ports[from].state == PT_FREE then from
    else FreePort(ports, Round(from, |ports|), tries - 1)
  }

  function NewPort(pt: Port, count: int): Port {
    Port(PT_ALLOC, pt.epoch + 1, count % UINT16_WRAP, [], Sem(count, []), Sem(0, []), NoClear)
  }

  function Created(w: World, count: int): World
    requires w.nextid < |w.ports|
  {
    var i := FreePort(w.ports, w.nextid, |w.ports|);
    if count < 0 || i == |w.ports| then w
    else WithPort(w, i, NewPort(w.ports[i], count)).(nextid := Round(i, |w.ports|))
  }

  // Clearing

  function ClearFrom(w: World, i: int, next: PtState): World {
    if !Usable(w, i) then w
    else
      var pt := w.ports[i];
      WithPort(w, i, pt.(state := PT_LIMBO, epoch := pt.epoch + 1, clear := Marked(next)))
  }

  function Nodes(q: seq<Item>): (r: seq<int>)
    ensures |r| == |q| && forall k :: 0 <= k < |q| ==> r[k] == q[k].node
  {
    if q == [] then [] else [q[0].node] + Nodes(q[1..])
  }

  /** The next part of `_ptclear`. Another process may run before each part: `dispose` and both resets can reschedule.
      */
  function ClearRest(w: World, i: int): World
    requires !BadPort(w, i)
  {
    var pt := w.ports[i];
    match pt.clear
    case NoClear => w
    case Marked(next) => WithPort(w, i, pt.(queue := [], clear := Spliced(next))).(free := Nodes(pt.queue) + w.free)
    case Spliced(next) =>
      WithPort(w, i, pt.(ssem := if next == PT_ALLOC then Sem(pt.maxcnt, []) else SemDelete(pt.ssem),
                         clear := SendDone(next)))
    case SendDone(next) =>
      WithPort(w, i, pt.(rsem := if next == PT_ALLOC then Sem(0, []) else SemDelete(pt.rsem),
                         clear := RecvDone(next)))
    case RecvDone(next) =>
      var w1 := WithPort(w, i, pt.(state := next, clear := NoClear));
      if next == PT_ALLOC then w1 else w1.(nextid := i)
  }

  function Killed(w: World, p: int): World
    requires 0 <= p < |w.pcs| && (w.pcs[p] != Idle ==> !BadPort(w, w.pcs[p].port))
  {
    var pc, w1 := w.pcs[p], WithPc(w, p, Idle);
    match pc
    case Idle => w
    case Sending(i, _, _) =>
      var pt := w.ports[i];
      if p in pt.ssem.waiters then WithPort(w1, i, pt.(ssem := SemWithdraw(pt.ssem, p))) else w1
    case Receiving(i, _) =>
      var pt := w.ports[i];
      if p in pt.rsem.waiters then WithPort(w1, i, pt.(rsem := SemWithdraw(pt.rsem, p))) else w1
  }

  // Runs

  ghost predicate Shape(w: World) {
    && w.nextid < |w.ports|
    && forall p :: 0 <= p < |w.pcs| && w.pcs[p] != Idle ==> !BadPort(w, w.pcs[p].port)
  }

  ghost predicate InFlight(w: World, p: int)
    requires Shape(w) && 0 <= p < |w.pcs|
  {
    match w.pcs[p]
    case Idle => false
    case Sending(i, _, _) => p !in w.ports[i].ssem.waiters
    case Receiving(i, _) => p !in w.ports[i].rsem.waiters
  }

  /** A message is to be appended while no node is free: the port system panics. */
  ghost predicate Panics(w: World, e: Event)
    requires Shape(w)
  {
    w.free == [] &&
    match e
    case Send(_, i, _) => Usable(w, i) && w.ports[i].ssem.count > 0
    case SendTail(p) => 0 <= p < |w.pcs| && w.pcs[p].Sending? && Revalidates(w.ports[w.pcs[p].port], w.pcs[p].epoch)
    case _ => false
  }

  /** What the code demands of its callers. A process calls only when it is not inside a call, and continues only when
      it has been released. Fewer than 2^32 clears and creations of a port happen while a process is inside a call on
      it. */
  ghost predicate Callable(w: World, e: Event)
    requires Shape(w)
  {
    match e
    case Send(p, _, _) => 0 <= p < |w.pcs| && w.pcs[p] == Idle
    case Recv(p, _) => 0 <= p < |w.pcs| && w.pcs[p] == Idle
    case SendTail(p) => 0 <= p < |w.pcs| && w.pcs[p].Sending? && InFlight(w, p) && Recent(w, p)
    case RecvTail(p) => 0 <= p < |w.pcs| && w.pcs[p].Receiving? && InFlight(w, p) && Recent(w, p)
    case Create(count) => count < UINT16_WRAP
    case Delete(_) => true
    case Reset(_) => true
    case Clearing(i) => !BadPort(w, i)
    case Kill(p) => 0 <= p < |w.pcs|
  }

  ghost predicate Enabled(w: World, e: Event)
    requires Shape(w)
  {
    Callable(w, e) && !Panics(w, e)
  }

  ghost predicate Recent(w: World, p: int)
    requires Shape(w) && 0 <= p < |w.pcs| && w.pcs[p] != Idle
  {
    w.ports[w.pcs[p].port].epoch - w.pcs[p].epoch < SEQ_WRAP
  }

  ghost function Step(w: World, e: Event): World
    requires Shape(w) && Enabled(w, e)
  {
    match e
    case Send(p, i, msg) => SendFrom(w, p, i, msg)
    case SendTail(p) => SendRest(w, p)
    case Recv(p, i) => RecvFrom(w, p, i)
    case RecvTail(p) => RecvRest(w, p)
    case Create(count) => Created(w, count)
    case Delete(i) => ClearFrom(w, i, PT_FREE)
    case Reset(i) => ClearFrom(w, i, PT_ALLOC)
    case Clearing(i) => ClearRest(w, i)
    case Kill(p) => Killed(w, p)
  }

  /** The receiver's head pointer is not NULL where the code follows it without a test. */
  ghost predicate HeadSafe(w: World, e: Event)
    requires Shape(w) && Enabled(w, e)
  {
    match e
    case Recv(_, i) => Usable(w, i) && w.ports[i].rsem.count > 0 ==> w.ports[i].queue != []
    case RecvTail(p) =>
      var pt := w.ports[w.pcs[p].port];
      Revalidates(pt, w.pcs[p].epoch) ==> pt.queue != []
    case _ => true
  }
}
