/** `getmem`, `getstk` and `freemem` (Chapter 9) on the list threaded through the free memory itself. */
module Heap {
  import opened Types
  import opened Lists
  import opened FreeList
  import opened HeapRuns

  /** The header that a free block carries in its first bytes. */
  datatype MemBlk = MemBlk(mnext: int, mlength: int)

  const NULL := 0

  // Stands for the address of the global list head, which lies outside the heap.
  const MEMLIST := -1

  /** The address of free block i, or NULL behind the last. */
  function AddrOf(l: seq<Blk>, i: int): int {
    if 0 <= i < |l| then l[i].addr else NULL
  }

  /** The node whose link leads to block i. */
  function PrevOf(l: seq<Blk>, i: int): int {
    if 0 < i <= |l| then l[i - 1].addr else MEMLIST
  }

  ghost predicate Node(mem: map<int, MemBlk>, a: int, next: int, length: int) {
    a in mem && mem[a] == MemBlk(next, length)
  }

  /** Memory holds exactly the list l, in order, with the lengths of its blocks. */
  ghost predicate Threaded(mem: map<int, MemBlk>, l: seq<Blk>) {
    && MEMLIST in mem && mem[MEMLIST].mnext == AddrOf(l, 0)
    && forall i :: 0 <= i < |l| ==> Node(mem, l[i].addr, AddrOf(l, i + 1), l[i].len)
  }

  /** The list in memory is l, it is ordered, and its head holds the number of free bytes. */
  ghost predicate HeapOk(mem: map<int, MemBlk>, l: seq<Blk>, lo: int, hi: int) {
    0 < lo && Ordered(l, lo, hi) && Threaded(mem, l) && mem[MEMLIST].mlength == Bytes(l)
  }

  // Writes to memory

  function SetNext(mem: map<int, MemBlk>, p: int, next: int): map<int, MemBlk>
    requires p in mem
  {
    mem[p := mem[p].(mnext := next)]
  }

  function SetLength(mem: map<int, MemBlk>, p: int, length: int): map<int, MemBlk>
    requires p in mem
  {
    mem[p := mem[p].(mlength := length)]
  }

  lemma PrevNode(mem: map<int, MemBlk>, l: seq<Blk>, i: nat)
    requires Threaded(mem, l) && i <= |l|
    ensures PrevOf(l, i) in mem && mem[PrevOf(l, i)].mnext == AddrOf(l, i)
    ensures i > 0 ==> mem[PrevOf(l, i)].mlength == l[i - 1].len
  {
    if i > 0 {
      assert Node(mem, l[i - 1].addr, AddrOf(l, i), l[i - 1].len);
    }
  }

  lemma PrevDistinct(l: seq<Blk>, lo: int, hi: int, i: nat, j: nat)
    requires Ordered(l, lo, hi) && 0 < lo && i <= |l| && j < |l|
    ensures (PrevOf(l, i) == l[j].addr <==> i == j + 1) && l[j].addr != MEMLIST
  {
  }

  lemma HolderDistinct(l: seq<Blk>, lo: int, hi: int, i: nat, j: nat, a: int)
    requires Ordered(l, lo, hi) && i < |l| && j < |l| && i != j && l[i].Holds(a)
    ensures l[j].addr != a
  {
  }

  lemma HeadDistinct(l: seq<Blk>, lo: int, hi: int, j: nat)
    requires Ordered(l, lo, hi) && 0 < lo && j < |l|
    ensures l[j].addr != MEMLIST && l[j].addr != NULL
  {
  }

  // The byte count in the list head is apart from the list.
  lemma CountThreaded(mem: map<int, MemBlk>, l: seq<Blk>, lo: int, hi: int, n: int)
    requires Threaded(mem, l) && Ordered(l, lo, hi) && 0 < lo
    ensures Threaded(SetLength(mem, MEMLIST, n), l)
  {
    var m0 := SetLength(mem, MEMLIST, n);
    forall j | 0 <= j < |l|
      ensures Node(m0, l[j].addr, AddrOf(l, j + 1), l[j].len)
    {
      HeadDistinct(l, lo, hi, j);
      assert Node(mem, l[j].addr, AddrOf(l, j + 1), l[j].len);
    }
  }

  // Unlinking block i

  lemma RemovedNode(mem: map<int, MemBlk>, l: seq<Blk>, lo: int, hi: int, i: nat, j: nat)
    requires Threaded(mem, l) && Ordered(l, lo, hi) && 0 < lo && i < |l| && j < |l| - 1
    ensures PrevOf(l, i) in mem
    ensures var m := RemoveAt(l, i);
            Node(SetNext(mem, PrevOf(l, i), AddrOf(l, i + 1)), m[j].addr, AddrOf(m, j + 1), m[j].len)
  {
    hide Ordered;
    var t := if j >= i then j + 1 else j;
    PrevNode(mem, l, i);
    RemoveEntry(l, i, j);
    PrevDistinct(l, lo, hi, i, t);
    assert Node(mem, l[t].addr, AddrOf(l, t + 1), l[t].len);
    if j + 1 < |l| - 1 { RemoveEntry(l, i, j + 1); }
  }

  lemma RemovedHead(l: seq<Blk>, i: nat)
    requires i < |l|
    ensures AddrOf(RemoveAt(l, i), 0) == if i == 0 then AddrOf(l, 1) else AddrOf(l, 0)
  {
    if |l| > 1 { RemoveEntry(l, i, 0); }
  }

  lemma UnlinkThreaded(mem: map<int, MemBlk>, l: seq<Blk>, lo: int, hi: int, i: nat)
    requires Threaded(mem, l) && Ordered(l, lo, hi) && 0 < lo && i < |l|
    ensures PrevOf(l, i) in mem && Threaded(SetNext(mem, PrevOf(l, i), AddrOf(l, i + 1)), RemoveAt(l, i))
  {
    hide Ordered, Node, RemoveAt;
    PrevNode(mem, l, i);
    RemovedHead(l, i);
    if i > 0 { PrevDistinct(l, lo, hi, 0, i - 1); }
    RemoveLength(l, i);
    var m, m1 := RemoveAt(l, i), SetNext(mem, PrevOf(l, i), AddrOf(l, i + 1));
    forall j | 0 <= j < |l| - 1
      ensures Node(m1, m[j].addr, AddrOf(m, j + 1), m[j].len)
    {
      RemovedNode(mem, l, lo, hi, i, j);
    }
  }

  lemma UnlinkOk(mem: map<int, MemBlk>, l: seq<Blk>, lo: int, hi: int, i: nat)
    requires HeapOk(mem, l, lo, hi) && i < |l|
    ensures PrevOf(l, i) in mem
    ensures var m1 := SetNext(mem, PrevOf(l, i), AddrOf(l, i + 1));
            && MEMLIST in m1 && m1[MEMLIST].mlength == Bytes(l)
            && HeapOk(SetLength(m1, MEMLIST, Bytes(l) - l[i].len), RemoveAt(l, i), lo, hi)
  {
    hide Ordered, Node, RemoveAt, Bytes;
    PrevNode(mem, l, i);
    RemoveBytes(l, i);
    RemoveOrdered(l, lo, hi, i);
    UnlinkThreaded(mem, l, lo, hi, i);
    CountThreaded(SetNext(mem, PrevOf(l, i), AddrOf(l, i + 1)), RemoveAt(l, i), lo, hi, Bytes(l) - l[i].len);
  }

  // Replacing block i by a block inside it, whose header is written and linked in

  lemma ReplacedNode(mem: map<int, MemBlk>, l: seq<Blk>, lo: int, hi: int, i: nat, b: Blk, j: nat)
    requires Threaded(mem, l) && Ordered(l, lo, hi) && 0 < lo && i < |l| && j < |l| && l[i].Holds(b.addr)
    ensures PrevOf(l, i) in mem
    ensures var m := l[i := b];
            Node(SetNext(mem, PrevOf(l, i), b.addr)[b.addr := MemBlk(AddrOf(l, i + 1), b.len)],
                 m[j].addr, AddrOf(m, j + 1), m[j].len)
  {
    hide Ordered;
    PrevNode(mem, l, i);
    PrevDistinct(l, lo, hi, i, j);
    assert Node(mem, l[j].addr, AddrOf(l, j + 1), l[j].len);
    if j != i {
      HolderDistinct(l, lo, hi, i, j, b.addr);
    }
  }

  lemma ReplaceOk(mem: map<int, MemBlk>, l: seq<Blk>, lo: int, hi: int, i: nat, b: Blk)
    requires HeapOk(mem, l, lo, hi) && i < |l| && l[i].Holds(b.addr) && Ordered(l[i := b], lo, hi)
    ensures PrevOf(l, i) in mem
    ensures var m1 := SetNext(mem, PrevOf(l, i), b.addr)[b.addr := MemBlk(AddrOf(l, i + 1), b.len)];
            && MEMLIST in m1 && m1[MEMLIST].mlength == Bytes(l)
            && HeapOk(SetLength(m1, MEMLIST, Bytes(l) - l[i].len + b.len), l[i := b], lo, hi)
  {
    hide Ordered, Node, Bytes;
    PrevNode(mem, l, i);
    BytesUpdate(l, i, b);
    HeadDistinct(l[i := b], lo, hi, i);
    if i > 0 { HeadDistinct(l, lo, hi, i - 1); }
    var m := l[i := b];
    var m1 := SetNext(mem, PrevOf(l, i), b.addr)[b.addr := MemBlk(AddrOf(l, i + 1), b.len)];
    forall j | 0 <= j < |m|
      ensures Node(m1, m[j].addr, AddrOf(m, j + 1), m[j].len)
    {
      ReplacedNode(mem, l, lo, hi, i, b, j);
    }
    CountThreaded(m1, m, lo, hi, Bytes(l) - l[i].len + b.len);
  }

  // Linking a new block in before block i

  lemma InsertedNode(mem: map<int, MemBlk>, l: seq<Blk>, lo: int, hi: int, i: nat, b: Blk, j: nat)
    requires Threaded(mem, l) && Ordered(l, lo, hi) && 0 < lo <= b.addr && i <= |l| && j <= |l|
    requires forall t :: 0 <= t < |l| ==> l[t].addr != b.addr
    ensures PrevOf(l, i) in mem && PrevOf(l, i) != b.addr
    ensures var m := InsertAt(l, i, b);
            |m| == |l| + 1 &&
            Node(SetNext(mem[b.addr := MemBlk(AddrOf(l, i), b.len)], PrevOf(l, i), b.addr),
                 m[j].addr, AddrOf(m, j + 1), m[j].len)
  {
    hide Ordered, InsertAt, Threaded;
    PrevNode(mem, l, i);
    InsertedEntry(l, i, b, j);
    if j < |l| { InsertedEntry(l, i, b, j + 1); }
    if j != i {
      var t := if j < i then j else j - 1;
      PrevDistinct(l, lo, hi, i, t);
      NodeOf(mem, l, t);
    }
  }

  lemma NodeOf(mem: map<int, MemBlk>, l: seq<Blk>, t: nat)
    requires Threaded(mem, l) && t < |l|
    ensures Node(mem, l[t].addr, AddrOf(l, t + 1), l[t].len)
  {
  }

  lemma LinkThreaded(mem: map<int, MemBlk>, l: seq<Blk>, lo: int, hi: int, i: nat, b: Blk)
    requires Threaded(mem, l) && Ordered(l, lo, hi) && 0 < lo <= b.addr && i <= |l|
    requires forall t :: 0 <= t < |l| ==> l[t].addr != b.addr
    ensures var m1 := mem[b.addr := MemBlk(AddrOf(l, i), b.len)];
            PrevOf(l, i) in m1 && Threaded(SetNext(m1, PrevOf(l, i), b.addr), InsertAt(l, i, b))
  {
    hide Ordered, Node, InsertAt;
    PrevNode(mem, l, i);
    InsertedEntry(l, i, b, 0);
    if i > 0 { HeadDistinct(l, lo, hi, i - 1); }
    var m, m2 := InsertAt(l, i, b), SetNext(mem[b.addr := MemBlk(AddrOf(l, i), b.len)], PrevOf(l, i), b.addr);
    forall j | 0 <= j <= |l|
      ensures Node(m2, m[j].addr, AddrOf(m, j + 1), m[j].len)
    {
      InsertedNode(mem, l, lo, hi, i, b, j);
    }
  }

  lemma LinkOk(mem: map<int, MemBlk>, l: seq<Blk>, lo: int, hi: int, i: nat, b: Blk)
    requires HeapOk(mem, l, lo, hi) && i <= |l| && lo <= b.addr && Ordered(InsertAt(l, i, b), lo, hi)
    requires forall t :: 0 <= t < |l| ==> l[t].addr != b.addr
    ensures MEMLIST in mem && mem[MEMLIST].mlength == Bytes(l)
    ensures var m1 := SetLength(mem, MEMLIST, Bytes(l) + b.len)[b.addr := MemBlk(AddrOf(l, i), b.len)];
            PrevOf(l, i) in m1 && HeapOk(SetNext(m1, PrevOf(l, i), b.addr), InsertAt(l, i, b), lo, hi)
  {
    hide Ordered, Node, InsertAt, Bytes;
    InsertBytes(l, i, b);
    CountThreaded(mem, l, lo, hi, Bytes(l) + b.len);
    LinkThreaded(SetLength(mem, MEMLIST, Bytes(l) + b.len), l, lo, hi, i, b);
  }

  // Extending block i upwards

  lemma JoinedNode(mem: map<int, MemBlk>, l: seq<Blk>, lo: int, hi: int, i: nat, n: int, j: nat)
    requires Threaded(mem, l) && Ordered(l, lo, hi) && i < |l| && j < |l|
    ensures l[i].addr in mem && mem[l[i].addr].mlength == l[i].len
    ensures var m := l[i := Blk(l[i].addr, l[i].len + n)];
            Node(SetLength(mem, l[i].addr, l[i].len + n), m[j].addr, AddrOf(m, j + 1), m[j].len)
  {
    hide Ordered;
    assert Node(mem, l[i].addr, AddrOf(l, i + 1), l[i].len);
    assert Node(mem, l[j].addr, AddrOf(l, j + 1), l[j].len);
    if j != i {
      SelfHolds(l, lo, hi, i);
      HolderDistinct(l, lo, hi, i, j, l[i].addr);
    }
  }

  lemma SelfHolds(l: seq<Blk>, lo: int, hi: int, i: nat)
    requires Ordered(l, lo, hi) && i < |l|
    ensures l[i].Holds(l[i].addr)
  {
  }

  lemma JoinOk(mem: map<int, MemBlk>, l: seq<Blk>, lo: int, hi: int, i: nat, n: int)
    requires HeapOk(mem, l, lo, hi) && i < |l| && Ordered(l[i := Blk(l[i].addr, l[i].len + n)], lo, hi)
    ensures MEMLIST in mem && mem[MEMLIST].mlength == Bytes(l)
    ensures var m0 := SetLength(mem, MEMLIST, Bytes(l) + n);
            && l[i].addr in m0 && m0[l[i].addr].mlength == l[i].len
            && HeapOk(SetLength(m0, l[i].addr, l[i].len + n), l[i := Blk(l[i].addr, l[i].len + n)], lo, hi)
  {
    hide Ordered, Node, Bytes;
    var b, m0 := Blk(l[i].addr, l[i].len + n), SetLength(mem, MEMLIST, Bytes(l) + n);
    BytesUpdate(l, i, b);
    CountThreaded(mem, l, lo, hi, Bytes(l) + n);
    HeadDistinct(l, lo, hi, i);
    JoinedNode(m0, l, lo, hi, i, n, i);
    var m, m2 := l[i := b], SetLength(m0, l[i].addr, l[i].len + n);
    forall j | 0 <= j < |m|
      ensures Node(m2, m[j].addr, AddrOf(m, j + 1), m[j].len)
    {
      JoinedNode(m0, l, lo, hi, i, n, j);
    }
  }

  /** Where the freed block goes: it extends the node before it, or becomes a node of its own. */
  lemma PutBackOk(mem: map<int, MemBlk>, l: seq<Blk>, lo: int, hi: int, i: nat, b: Blk)
    requires HeapOk(mem, l, lo, hi) && 0 < b.len && lo <= b.addr && b.End() <= hi && !Clashes(l, b)
    requires i == Below(l, b.addr)
    ensures MEMLIST in mem && mem[MEMLIST].mlength == Bytes(l)
    ensures var m0 := SetLength(mem, MEMLIST, Bytes(l) + b.len);
            if i > 0 && l[i - 1].End() == b.addr then
              && l[i - 1].addr in m0 && m0[l[i - 1].addr].mlength == l[i - 1].len
              && HeapOk(SetLength(m0, l[i - 1].addr, l[i - 1].len + b.len), GiveBack(l, b), lo, hi)
            else
              var m1 := m0[b.addr := MemBlk(AddrOf(l, i), b.len)];
              && PrevOf(l, i) in m1 && HeapOk(SetNext(m1, PrevOf(l, i), b.addr), GiveBack(l, b), lo, hi)
  {
    hide Ordered, Threaded, Bytes, InsertAt, Below, Clashes;
    GiveBackOrdered(l, lo, hi, b);
    if i > 0 && l[i - 1].End() == b.addr {
      JoinOk(mem, l, lo, hi, i - 1, b.len);
    } else {
      FreshAddr(l, lo, hi, b);
      LinkOk(mem, l, lo, hi, i, b);
    }
  }

  lemma FreshAddr(l: seq<Blk>, lo: int, hi: int, b: Blk)
    requires Ordered(l, lo, hi) && 0 < b.len && !Clashes(l, b)
    ensures forall t :: 0 <= t < |l| ==> l[t].addr != b.addr
  {
    NoClash(l, lo, hi, b);
  }

  class FreeMemory {
    const minheap: int
    const maxheap: int

    // The headers that the allocator has written in memory, by address, and the list head.
    var mem: map<int, MemBlk>

    // Abstraction: the free blocks.
    ghost var free: seq<Blk>

    ghost predicate Valid()
      reads this
    {
      0 < minheap <= maxheap < WORD64 && HeapOk(mem, free, minheap, maxheap)
    }

    /** The heap as one free block. */
    constructor (minheap: int, maxheap: int)
      requires 0 < minheap < maxheap < WORD64
      ensures Valid() && this.minheap == minheap && this.maxheap == maxheap
      ensures free == [Blk(minheap, maxheap - minheap)]
    {
      this.minheap, this.maxheap := minheap, maxheap;
      mem := map[MEMLIST := MemBlk(minheap, maxheap - minheap), minheap := MemBlk(NULL, maxheap - minheap)];
      free := [Blk(minheap, maxheap - minheap)];
    }

    lemma NodeAt(i: nat)
      requires Valid() && i <= |free|
      ensures AddrOf(free, i) == NULL <==> i == |free|
      ensures i < |free| ==> Node(mem, AddrOf(free, i), AddrOf(free, i + 1), free[i].len)
      ensures PrevOf(free, i) in mem && (PrevOf(free, i) == MEMLIST <==> i == 0)
      ensures mem[PrevOf(free, i)].mnext == AddrOf(free, i)
      ensures i > 0 ==> mem[PrevOf(free, i)].mlength == free[i - 1].len
    {
      PrevNode(mem, free, i);
    }

    /** First fit. Fails exactly when no single free block is large enough; otherwise the first block that fits gives up
        its lowest bytes. */
    method GetMem(nbytes: int) returns (r: Option<int>)
      requires Valid() && 0 <= nbytes < WORD64
      modifies this`mem, this`free
      ensures Valid()
      ensures var n, l := RoundMb(nbytes), old(free);
              r == None <==> nbytes == 0 || forall j :: 0 <= j < |l| ==> l[j].len < n
      ensures r == None ==> free == old(free)
      ensures var n, l := RoundMb(nbytes), old(free);
              r.Some? ==> FirstFit(l, n) < |l| && r.value == l[FirstFit(l, n)].addr && free == CutFront(l, FirstFit(l, n), n)
      ensures r.Some? ==> (Handed(old(free), free, Blk(r.value, nbytes)) <==> nbytes <= WORD64 - 8)
    {
      hide RoundMb, HeapOk, CutFront, Handed;
      if nbytes == 0 {
        return None;
      }
      var n := RoundMb(nbytes);
      RoundMbIff(nbytes);
      var prev, curr, i := FindFit(n);
      if curr == NULL {
        return None;
      }
      HandedIff(nbytes);
      TakeFront(prev, curr, n, i);
      return Some(curr);
    }

    lemma HandedIff(nbytes: int)
      requires Valid() && 0 < nbytes < WORD64 && FirstFit(free, RoundMb(nbytes)) < |free|
      ensures var n := RoundMb(nbytes);
              var i := FirstFit(free, n);
              Handed(free, CutFront(free, i, n), Blk(free[i].addr, nbytes)) <==> nbytes <= WORD64 - 8
    {
      GetMemHandsIff(free, minheap, maxheap, nbytes);
    }

    // Takes the first n bytes of the node found.
    method TakeFront(prev: int, curr: int, n: int, ghost i: nat)
      requires Valid() && i < |free| && 0 <= n <= free[i].len && prev == PrevOf(free, i) && curr == AddrOf(free, i)
      modifies this`mem, this`free
      ensures Valid() && free == CutFront(old(free), i, n)
    {
      hide HeapOk;
      ghost var l := free;
      NodeAt(i);
      CutFrontHolds(l, minheap, maxheap, i, n);
      if mem[curr].mlength == n {
        UnlinkOk(mem, l, minheap, maxheap, i);
        mem := SetNext(mem, prev, mem[curr].mnext);
      } else {
        var leftover := curr + n;
        ReplaceOk(mem, l, minheap, maxheap, i, Blk(leftover, l[i].len - n));
        var header := MemBlk(mem[curr].mnext, mem[curr].mlength - n);
        mem := SetNext(mem, prev, leftover);
        mem := mem[leftover := header];
      }
      mem := SetLength(mem, MEMLIST, mem[MEMLIST].mlength - n);
      free := CutFront(l, i, n);
    }

    lemma CutFrontHolds(l: seq<Blk>, lo: int, hi: int, i: nat, n: int)
      requires HeapOk(mem, l, lo, hi) && i < |l| && 0 <= n <= l[i].len
      ensures Ordered(CutFront(l, i, n), lo, hi) && Ordered(CutBack(l, i, n), lo, hi)
      ensures n < l[i].len ==> l[i].Holds(l[i].addr + n) && l[i].Holds(l[i].addr)
    {
      CutFrontOrdered(l, lo, hi, i, n);
      CutBackOrdered(l, lo, hi, i, n);
    }

    // The search loop of `getmem`.
    method FindFit(n: int) returns (prev: int, curr: int, ghost i: nat)
      requires Valid()
      ensures curr == AddrOf(free, FirstFit(free, n)) && prev == PrevOf(free, FirstFit(free, n))
      ensures curr == NULL <==> FirstFit(free, n) == |free|
      ensures i == FirstFit(free, n)
    {
      hide Bytes, Node, Ordered, FirstFit;
      prev := MEMLIST;
      curr := mem[MEMLIST].mnext;
      i := 0;
      NodeAt(0);
      assert free[0..] == free;
      hide HeapOk;
      while curr != NULL && mem[curr].mlength < n
        invariant i <= |free| && curr == AddrOf(free, i) && prev == PrevOf(free, i) && (curr != NULL ==> curr in mem)
        invariant FirstFit(free, n) == i + FirstFit(free[i..], n)
        decreases |free| - i
      {
        NodeAt(i);
        assert free[i..][1..] == free[i + 1..];
        prev := curr;
        curr := mem[curr].mnext;
        i := i + 1;
        NodeAt(i);
      }
      NodeAt(i);
    }

    /** Last fit, carved from the top. The pointer returned is to the last word of the block. */
    method GetStk(nbytes: int) returns (r: Option<int>)
      requires Valid() && 0 <= nbytes < WORD64
      modifies this`mem, this`free
      ensures Valid()
      ensures var n, l := RoundMb(nbytes), old(free);
              r == None <==> nbytes == 0 || forall j :: 0 <= j < |l| ==> l[j].len < n
      ensures r == None ==> free == old(free)
      ensures var n, l := RoundMb(nbytes), old(free);
              r.Some? ==>
                && LastFit(l, n) < |l| && free == CutBack(l, LastFit(l, n), n)
                && r.value == l[LastFit(l, n)].End() - 8
                && StkBlock(r.value, nbytes) == Blk(l[LastFit(l, n)].End() - n, n)
    {
      hide RoundMb, HeapOk, CutBack;
      if nbytes == 0 {
        return None;
      }
      var n := RoundMb(nbytes);
      RoundMbIff(nbytes);
      var fitsprev, fits, i := FindLast(n);
      if fits == NULL {
        return None;
      }
      var start := TakeBack(fitsprev, fits, n, i);
      return Some(start + n - 8);
    }

    // Takes the last n bytes of the node found.
    method TakeBack(prev: int, curr: int, n: int, ghost i: nat) returns (start: int)
      requires Valid() && i < |free| && 0 <= n <= free[i].len && prev == PrevOf(free, i) && curr == AddrOf(free, i)
      modifies this`mem, this`free
      ensures Valid() && free == CutBack(old(free), i, n) && start == old(free)[i].End() - n
    {
      hide HeapOk;
      ghost var l := free;
      NodeAt(i);
      CutFrontHolds(l, minheap, maxheap, i, n);
      start := curr;
      if n == mem[curr].mlength {
        UnlinkOk(mem, l, minheap, maxheap, i);
        mem := SetNext(mem, prev, mem[curr].mnext);
      } else {
        ReplaceOk(mem, l, minheap, maxheap, i, Blk(curr, l[i].len - n));
        PrevLinks(i);
        mem := SetLength(mem, curr, mem[curr].mlength - n);
        start := curr + mem[curr].mlength;
      }
      mem := SetLength(mem, MEMLIST, mem[MEMLIST].mlength - n);
      free := CutBack(l, i, n);
    }

    // Linking a node to the place where it is already linked changes nothing.
    lemma PrevLinks(i: nat)
      requires Valid() && i < |free|
      ensures PrevOf(free, i) in mem && SetNext(mem, PrevOf(free, i), AddrOf(free, i)) == mem
    {
      PrevNode(mem, free, i);
    }

    // The search loop of `getstk`: the last block that fits, and the node before it.
    method FindLast(n: int) returns (fitsprev: int, fits: int, ghost i: nat)
      requires Valid()
      ensures fits == AddrOf(free, LastFit(free, n))
      ensures LastFit(free, n) < |free| ==> fitsprev == PrevOf(free, LastFit(free, n))
      ensures fits == NULL <==> LastFit(free, n) == |free|
      ensures i == LastFit(free, n)
    {
      hide HeapOk, LastFit;
      NodeAt(0);
      var prev, curr := MEMLIST, mem[MEMLIST].mnext;
      fits, fitsprev := NULL, NULL;
      ghost var k := 0;
      i := |free|;
      while curr != NULL
        invariant k <= |free| && curr == AddrOf(free, k) && prev == PrevOf(free, k) && (curr == NULL <==> k == |free|)
        invariant i < k || (i == |free| && fits == NULL)
        invariant i < k ==> free[i].len >= n && fits == AddrOf(free, i) && fitsprev == PrevOf(free, i)
        invariant forall j :: 0 <= j < k && (i < k ==> i < j) ==> free[j].len < n
        decreases |free| - k
      {
        NodeAt(k);
        if mem[curr].mlength >= n {
          fits, fitsprev := curr, prev;
          i := k;
        }
        prev := curr;
        curr := mem[curr].mnext;
        k := k + 1;
        NodeAt(k);
      }
      NodeAt(i);
      LastFitIs(free, n, i);
    }

    /** Rejects a block exactly when it overlaps some free block; otherwise returns its bytes to the list. */
    method FreeMem(blkaddr: int, nbytes: int) returns (status: Status)
      requires Valid() && 0 <= nbytes < WORD64
      requires nbytes > 0 && minheap <= blkaddr <= maxheap ==>
        nbytes <= WORD64 - 8 && blkaddr + RoundMb(nbytes) <= maxheap
      modifies this`mem, this`free
      ensures Valid()
      ensures var b, l := Blk(blkaddr, RoundMb(nbytes)), old(free);
              status == SYSERR <==>
                nbytes == 0 || blkaddr < minheap || blkaddr > maxheap || exists j :: 0 <= j < |l| && !l[j].Apart(b)
      ensures free == if status == OK then GiveBack(old(free), Blk(blkaddr, RoundMb(nbytes))) else old(free)
    {
      hide RoundMb, HeapOk, GiveBack;
      if nbytes == 0 || blkaddr < minheap || blkaddr > maxheap {
        return SYSERR;
      }
      var n := RoundMb(nbytes);
      RoundMbIff(nbytes);
      ghost var b := Blk(blkaddr, n);
      ClashTest(b);
      var prev, next, i := FindPlace(blkaddr);
      NodeAt(i);
      var top := if prev == MEMLIST then NULL else prev + mem[prev].mlength;
      if (prev != MEMLIST && blkaddr < top) || (next != NULL && blkaddr + n > next) {
        return SYSERR;
      }
      PutBack(prev, next, top, blkaddr, n, i);
      return OK;
    }

    /** The macro `freestk`: frees the block below the pointer that `getstk` returned. */
    method FreeStk(pointer: int, nbytes: int) returns (status: Status)
      requires Valid() && 0 <= nbytes < WORD64
      requires var b := StkBlock(pointer, nbytes); b.len > 0 && minheap <= b.addr <= maxheap ==> b.End() <= maxheap
      modifies this`mem, this`free
      ensures Valid()
      ensures var b, l := StkBlock(pointer, nbytes), old(free);
              && (status == SYSERR <==>
                    b.len == 0 || b.addr < minheap || b.addr > maxheap || exists j :: 0 <= j < |l| && !l[j].Apart(b))
              && free == if status == OK then GiveBack(l, b) else l
    {
      hide HeapOk, GiveBack, RoundMb;
      RoundMbTwice(nbytes);
      var b := StkBlock(pointer, nbytes);
      status := FreeMem(b.addr, b.len);
    }

    lemma ClashTest(b: Blk)
      requires Valid() && 0 < b.len
      ensures Clashes(free, b) <==> exists j :: 0 <= j < |free| && !free[j].Apart(b)
    {
      ClashesIffOverlaps(free, minheap, maxheap, b);
    }

    // The freed block extends the node before it, or becomes a node of its own.
    method PutBack(prev: int, next: int, top: int, blkaddr: int, n: int, ghost i: nat)
      requires Valid() && 0 < n && minheap <= blkaddr && blkaddr + n <= maxheap && !Clashes(free, Blk(blkaddr, n))
      requires i == Below(free, blkaddr) && prev == PrevOf(free, i) && next == AddrOf(free, i)
      requires top == if i == 0 then NULL else free[i - 1].End()
      modifies this`mem, this`free
      ensures Valid() && free == GiveBack(old(free), Blk(blkaddr, n))
    {
      hide HeapOk, GiveBack, Below, Clashes, SetLength, SetNext, AddrOf, PrevOf;
      ghost var l, b := free, Blk(blkaddr, n);
      PutBackPlan(prev, next, top, b, i);
      mem := SetLength(mem, MEMLIST, mem[MEMLIST].mlength + n);
      if top == blkaddr {
        mem := SetLength(mem, prev, mem[prev].mlength + n);
      } else {
        mem := mem[blkaddr := MemBlk(next, n)];
        mem := SetNext(mem, prev, blkaddr);
      }
      free := GiveBack(l, b);
    }

    lemma PutBackPlan(prev: int, next: int, top: int, b: Blk, i: nat)
      requires Valid() && 0 < b.len && minheap <= b.addr && b.End() <= maxheap && !Clashes(free, b)
      requires i == Below(free, b.addr) && prev == PrevOf(free, i) && next == AddrOf(free, i)
      requires top == if i == 0 then NULL else free[i - 1].End()
      ensures MEMLIST in mem
      ensures var m0 := SetLength(mem, MEMLIST, mem[MEMLIST].mlength + b.len);
              if top == b.addr then
                && prev in m0
                && HeapOk(SetLength(m0, prev, m0[prev].mlength + b.len), GiveBack(free, b), minheap, maxheap)
              else
                var m1 := m0[b.addr := MemBlk(next, b.len)];
                prev in m1 && HeapOk(SetNext(m1, prev, b.addr), GiveBack(free, b), minheap, maxheap)
    {
      hide HeapOk, GiveBack, Below, Clashes, SetLength, SetNext;
      PutBackOk(mem, free, minheap, maxheap, i, b);
    }

    // The search loop of `freemem`: the neighbours of an address.
    method FindPlace(blkaddr: int) returns (prev: int, next: int, ghost i: nat)
      requires Valid()
      ensures next == AddrOf(free, Below(free, blkaddr)) && prev == PrevOf(free, Below(free, blkaddr))
      ensures i == Below(free, blkaddr)
    {
      prev := MEMLIST;
      next := mem[MEMLIST].mnext;
      i := 0;
      NodeAt(0);
      assert free[0..] == free;
      hide HeapOk;
      while next != NULL && next < blkaddr
        invariant i <= |free| && next == AddrOf(free, i) && prev == PrevOf(free, i) && (next != NULL ==> next in mem)
        invariant Below(free, blkaddr) == i + Below(free[i..], blkaddr)
        decreases |free| - i
      {
        NodeAt(i);
        assert free[i..][1..] == free[i + 1..];
        prev := next;
        next := mem[next].mnext;
        i := i + 1;
        NodeAt(i);
      }
      NodeAt(i);
    }
  }
}
