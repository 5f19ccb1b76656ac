/** The heap over whole runs (Chapter 9): free and allocated blocks partition it, and freeing undoes allocating. */
module HeapRuns {
  import opened Lists
  import opened FreeList

  /** The free list and the blocks handed out. */
  datatype Heap = Heap(free: seq<Blk>, live: set<Blk>)

  ghost predicate Live(live: set<Blk>, x: int) {
    exists b :: b in live && b.Holds(x)
  }

  ghost predicate Aligned(b: Blk) {
    b.addr % 8 == 0 && b.len % 8 == 0
  }

  /** Every byte of the heap is in a free block or in a block handed out, and never in both; blocks do not overlap; the
      free list is in address order; everything is aligned to eight. */
  ghost predicate Partition(h: Heap, lo: int, hi: int) {
    && Ordered(h.free, lo, hi)
    && (forall i :: 0 <= i < |h.free| ==> Aligned(h.free[i]))
    && (forall b :: b in h.live ==> lo <= b.addr && 0 < b.len && b.End() <= hi && Aligned(b))
    && (forall b, c :: b in h.live && c in h.live && b != c ==> b.Apart(c))
    && (forall x :: lo <= x < hi ==> (Free(h.free, x) <==> !Live(h.live, x)))
  }

  // Calls

  datatype Call =
    | GetMem(nbytes: int) | GetStk(nbytes: int)
    | FreeMem(block: Blk, nbytes: int) | FreeStk(block: Blk, nbytes: int)

  /** `getmem` and `getstk` may ask for any 64-bit size; only blocks handed out are freed, with a size that rounds to
      their own. */
  ghost predicate Legal(h: Heap, c: Call) {
    && 0 <= c.nbytes < WORD64
    && match c
       case FreeMem(b, n) => b in h.live && RoundMb(n) == b.len
       case FreeStk(b, n) => b in h.live && RoundMb(n) == b.len
       case _ => true
  }

  /** The block that the macro `freestk` frees, from the pointer that `getstk` returned. */
  function StkBlock(pointer: int, nbytes: int): Blk
    requires 0 <= nbytes < WORD64
  {
    Blk(pointer - RoundMb(nbytes) + 8, RoundMb(nbytes))
  }

  ghost function Step(h: Heap, c: Call): Heap
    requires Legal(h, c)
  {
    var n := RoundMb(c.nbytes);
    match c
    case GetMem(_) =>
      var i := FirstFit(h.free, n);
      if c.nbytes == 0 || i == |h.free| then h else Taken(h, CutFront(h.free, i, n), Blk(h.free[i].addr, n))
    case GetStk(_) =>
      var i := LastFit(h.free, n);
      if c.nbytes == 0 || i == |h.free| then h else Taken(h, CutBack(h.free, i, n), Blk(h.free[i].End() - n, n))
    case FreeMem(b, _) => Heap(GiveBack(h.free, b), h.live - {b})
    case FreeStk(b, _) =>
      var s := StkBlock(b.End() - 8, c.nbytes);
      Heap(GiveBack(h.free, s), h.live - {s})
  }

  // A block of no bytes (a size that wrapped around to zero) is not a block.
  ghost function Taken(h: Heap, free: seq<Blk>, b: Blk): Heap {
    Heap(free, if b.len == 0 then h.live else h.live + {b})
  }

  /** Subtracting a block from the free bytes and handing it out keeps the partition. */
  lemma TakeKeeps(h: Heap, lo: int, hi: int, free: seq<Blk>, b: Blk)
    requires Partition(h, lo, hi) && Ordered(free, lo, hi) && lo <= b.addr && 0 <= b.len && b.End() <= hi
    requires (forall i :: 0 <= i < |free| ==> Aligned(free[i])) && Aligned(b)
    requires forall x :: b.Holds(x) ==> Free(h.free, x)
    requires forall x :: Free(free, x) <==> Free(h.free, x) && !b.Holds(x)
    ensures Partition(Taken(h, free, b), lo, hi)
  {
    if b.len > 0 {
      var live' := h.live + {b};
      forall c | c in h.live
        ensures c.Apart(b)
      {
        TakenApart(h, lo, hi, b, c);
      }
      forall x | lo <= x < hi
        ensures Free(free, x) <==> !Live(live', x)
      {
        if Live(h.live, x) {
          var c :| c in h.live && c.Holds(x);
          assert c in live' && c.Holds(x);
        }
        if b.Holds(x) { assert b in live' && b.Holds(x); }
      }
    }
  }

  lemma TakenApart(h: Heap, lo: int, hi: int, b: Blk, c: Blk)
    requires Partition(h, lo, hi) && lo <= b.addr && 0 < b.len && b.End() <= hi && c in h.live
    requires forall x :: b.Holds(x) ==> Free(h.free, x)
    ensures c.Apart(b)
  {
    ApartIff(c, b);
    forall x ensures !(c.Holds(x) && b.Holds(x)) {
      if c.Holds(x) { assert Live(h.live, x); }
    }
  }

  /** Two blocks that are not empty are apart exactly when they share no byte. */
  lemma ApartIff(a: Blk, b: Blk)
    requires 0 < a.len && 0 < b.len
    ensures a.Apart(b) <==> forall x :: !(a.Holds(x) && b.Holds(x))
  {
    var x := if a.addr <= b.addr then b.addr else a.addr;
    assert a.Apart(b) || (a.Holds(x) && b.Holds(x));
  }

  /** A block handed out overlaps no free block, so `freemem` never rejects it; returning it keeps the partition. */
  lemma ReturnKeeps(h: Heap, lo: int, hi: int, b: Blk)
    requires Partition(h, lo, hi) && b in h.live
    ensures !Clashes(h.free, b)
    ensures Partition(Heap(GiveBack(h.free, b), h.live - {b}), lo, hi)
  {
    LiveNoClash(h, lo, hi, b);
    GiveBackOrdered(h.free, lo, hi, b);
    GiveBackAligned(h.free, b);
    var live' := h.live - {b};
    forall x | lo <= x < hi
      ensures Free(GiveBack(h.free, b), x) <==> !Live(live', x)
    {
      GiveBackBytes(h.free, b, x);
      if Live(h.live, x) && !b.Holds(x) {
        var c :| c in h.live && c.Holds(x);
        assert c in live' && c.Holds(x);
      }
      if b.Holds(x) { assert Live(h.live, x); }
    }
  }

  lemma LiveNoClash(h: Heap, lo: int, hi: int, b: Blk)
    requires Partition(h, lo, hi) && b in h.live
    ensures !Clashes(h.free, b)
  {
    ClashesIffOverlaps(h.free, lo, hi, b);
    forall j | 0 <= j < |h.free|
      ensures h.free[j].Apart(b)
    {
      ApartIff(h.free[j], b);
      forall x ensures !(h.free[j].Holds(x) && b.Holds(x)) {
        if h.free[j].Holds(x) { assert Free(h.free, x); }
        if b.Holds(x) { assert Live(h.live, x); }
      }
    }
  }

  lemma GiveBackAligned(l: seq<Blk>, b: Blk)
    requires (forall i :: 0 <= i < |l| ==> Aligned(l[i])) && Aligned(b)
    ensures forall i :: 0 <= i < |GiveBack(l, b)| ==> Aligned(GiveBack(l, b)[i])
  {
  }

  lemma CutAligned(l: seq<Blk>, i: nat, n: int)
    requires (forall j :: 0 <= j < |l| ==> Aligned(l[j])) && i < |l| && n % 8 == 0
    ensures forall j :: 0 <= j < |CutFront(l, i, n)| ==> Aligned(CutFront(l, i, n)[j])
    ensures forall j :: 0 <= j < |CutBack(l, i, n)| ==> Aligned(CutBack(l, i, n)[j])
    ensures Aligned(Blk(l[i].addr, n)) && Aligned(Blk(l[i].End() - n, n))
  {
    AlignedParts(l[i], n);
    hide Aligned;
    forall j | 0 <= j < |CutFront(l, i, n)| ensures Aligned(CutFront(l, i, n)[j]) {
      if l[i].len == n { RemoveEntry(l, i, j); }
    }
    forall j | 0 <= j < |CutBack(l, i, n)| ensures Aligned(CutBack(l, i, n)[j]) {
      if l[i].len == n { RemoveEntry(l, i, j); }
    }
  }

  lemma AlignedParts(b: Blk, n: int)
    requires Aligned(b) && n % 8 == 0
    ensures Aligned(Blk(b.addr, n)) && Aligned(Blk(b.End() - n, n))
    ensures Aligned(Blk(b.addr + n, b.len - n)) && Aligned(Blk(b.addr, b.len - n))
  {
  }

  lemma GetMemKeeps(h: Heap, lo: int, hi: int, n: int, i: nat)
    requires Partition(h, lo, hi) && 0 <= n && n % 8 == 0 && i < |h.free| && h.free[i].len >= n
    ensures Partition(Taken(h, CutFront(h.free, i, n), Blk(h.free[i].addr, n)), lo, hi)
  {
    var b := Blk(h.free[i].addr, n);
    CutFrontOrdered(h.free, lo, hi, i, n);
    CutAligned(h.free, i, n);
    forall x ensures Free(CutFront(h.free, i, n), x) <==> Free(h.free, x) && !b.Holds(x) {
      CutFrontBytes(h.free, lo, hi, i, n, x);
    }
    forall x | b.Holds(x) ensures Free(h.free, x) { assert h.free[i].Holds(x); }
    TakeKeeps(h, lo, hi, CutFront(h.free, i, n), b);
  }

  lemma GetStkKeeps(h: Heap, lo: int, hi: int, n: int, i: nat)
    requires Partition(h, lo, hi) && 0 <= n && n % 8 == 0 && i < |h.free| && h.free[i].len >= n
    ensures Partition(Taken(h, CutBack(h.free, i, n), Blk(h.free[i].End() - n, n)), lo, hi)
  {
    var b := Blk(h.free[i].End() - n, n);
    CutBackOrdered(h.free, lo, hi, i, n);
    CutAligned(h.free, i, n);
    forall x ensures Free(CutBack(h.free, i, n), x) <==> Free(h.free, x) && !b.Holds(x) {
      CutBackBytes(h.free, lo, hi, i, n, x);
    }
    forall x | b.Holds(x) ensures Free(h.free, x) { assert h.free[i].Holds(x); }
    TakeKeeps(h, lo, hi, CutBack(h.free, i, n), b);
  }

  /** Every call keeps the partition of the heap. */
  lemma StepKeeps(h: Heap, lo: int, hi: int, c: Call)
    requires Partition(h, lo, hi) && Legal(h, c)
    ensures Partition(Step(h, c), lo, hi)
  {
    hide RoundMb, Partition, Aligned;
    var n := RoundMb(c.nbytes);
    RoundMbIff(c.nbytes);
    match c
    case GetMem(_) =>
      var i := FirstFit(h.free, n);
      if c.nbytes != 0 && i < |h.free| { GetMemKeeps(h, lo, hi, n, i); }
    case GetStk(_) =>
      var i := LastFit(h.free, n);
      if c.nbytes != 0 && i < |h.free| { GetStkKeeps(h, lo, hi, n, i); }
    case FreeMem(b, _) => ReturnKeeps(h, lo, hi, b);
    case FreeStk(b, _) =>
      assert StkBlock(b.End() - 8, c.nbytes) == b;
      ReturnKeeps(h, lo, hi, b);
  }

  ghost predicate LegalRun(h: Heap, cs: seq<Call>)
    decreases |cs|
  {
    cs == [] || (Legal(h, cs[0]) && LegalRun(Step(h, cs[0]), cs[1..]))
  }

  ghost function Run(h: Heap, cs: seq<Call>): Heap
    requires LegalRun(h, cs)
    decreases |cs|
  {
    if cs == [] then h else Run(Step(h, cs[0]), cs[1..])
  }

  /** After any sequence of allocations, of any sizes, and of frees of blocks handed out, the free blocks and the blocks
      handed out still partition the heap. */
  lemma {:induction false} HeapPartitioned(h: Heap, lo: int, hi: int, cs: seq<Call>)
    requires Partition(h, lo, hi) && LegalRun(h, cs)
    ensures Partition(Run(h, cs), lo, hi)
    decreases |cs|
  {
    if cs != [] {
      StepKeeps(h, lo, hi, cs[0]);
      HeapPartitioned(Step(h, cs[0]), lo, hi, cs[1..]);
    }
  }

  /** A heap that is one aligned free block, with nothing handed out, satisfies the partition. */
  lemma StartPartition(lo: int, hi: int)
    requires lo < hi && lo % 8 == 0 && hi % 8 == 0
    ensures Partition(Heap([Blk(lo, hi - lo)], {}), lo, hi) && Total(Heap([Blk(lo, hi - lo)], {})) == hi - lo
  {
    var l := [Blk(lo, hi - lo)];
    assert Bytes(l) == hi - lo + Bytes([]);
    forall x | lo <= x < hi ensures Free(l, x) { assert l[0].Holds(x); }
  }

  // Conservation

  /** The number of bytes in a set of blocks. */
  ghost function SetBytes(s: set<Blk>): int {
    if s == {} then 0
    else
      var b :| b in s;
      b.len + SetBytes(s - {b})
  }

  lemma {:induction false} SetBytesSplit(s: set<Blk>, b: Blk)
    requires b in s
    ensures SetBytes(s) == b.len + SetBytes(s - {b})
  {
    var c :| c in s && SetBytes(s) == c.len + SetBytes(s - {c});
    if b != c {
      SetBytesSplit(s - {c}, b);
      SetBytesSplit(s - {b}, c);
      assert s - {c} - {b} == s - {b} - {c};
    }
  }

  /** The bytes on the free list and the bytes handed out. */
  ghost function Total(h: Heap): int {
    Bytes(h.free) + SetBytes(h.live)
  }

  lemma TakeConserves(h: Heap, lo: int, hi: int, free: seq<Blk>, b: Blk)
    requires Partition(h, lo, hi) && lo <= b.addr && 0 <= b.len && b.End() <= hi
    requires b.len > 0 ==> Free(h.free, b.addr)
    requires Bytes(free) == Bytes(h.free) - b.len
    ensures Total(Taken(h, free, b)) == Total(h)
  {
    if b.len > 0 {
      LiveFirstByte(h.live, b);
      SetBytesSplit(h.live + {b}, b);
      assert h.live + {b} - {b} == h.live;
    }
  }

  lemma LiveFirstByte(live: set<Blk>, b: Blk)
    requires 0 < b.len
    ensures b in live ==> Live(live, b.addr)
  {
    assert b.Holds(b.addr);
  }

  lemma ReturnConserves(h: Heap, b: Blk)
    requires b in h.live
    ensures Total(Heap(GiveBack(h.free, b), h.live - {b})) == Total(h)
  {
    GiveBackCount(h.free, b);
    SetBytesSplit(h.live, b);
  }

  lemma CutConserves(h: Heap, lo: int, hi: int, n: int, i: nat)
    requires Partition(h, lo, hi) && 0 <= n && i < |h.free| && h.free[i].len >= n
    ensures Total(Taken(h, CutFront(h.free, i, n), Blk(h.free[i].addr, n))) == Total(h)
    ensures Total(Taken(h, CutBack(h.free, i, n), Blk(h.free[i].End() - n, n))) == Total(h)
  {
    hide Total, Taken, CutFront, CutBack, Bytes;
    CutBytesCount(h.free, i, n);
    var a, b := Blk(h.free[i].addr, n), Blk(h.free[i].End() - n, n);
    if n > 0 { assert h.free[i].Holds(a.addr) && h.free[i].Holds(b.addr); }
    TakeConserves(h, lo, hi, CutFront(h.free, i, n), a);
    TakeConserves(h, lo, hi, CutBack(h.free, i, n), b);
  }

  lemma StepConserves(h: Heap, lo: int, hi: int, c: Call)
    requires Partition(h, lo, hi) && Legal(h, c)
    ensures Total(Step(h, c)) == Total(h)
  {
    hide RoundMb, Partition, Total, Taken, CutFront, CutBack, GiveBack;
    var n := RoundMb(c.nbytes);
    RoundMbIff(c.nbytes);
    match c
    case GetMem(_) =>
      var i := FirstFit(h.free, n);
      if c.nbytes != 0 && i < |h.free| { CutConserves(h, lo, hi, n, i); }
    case GetStk(_) =>
      var i := LastFit(h.free, n);
      if c.nbytes != 0 && i < |h.free| { CutConserves(h, lo, hi, n, i); }
    case FreeMem(b, _) => ReturnConserves(h, b);
    case FreeStk(b, _) =>
      assert StkBlock(b.End() - 8, c.nbytes) == b;
      ReturnConserves(h, b);
  }

  /** Conservation: after any sequence of allocations, of any sizes, and of frees of blocks handed out, the bytes on the
      free list and the bytes handed out together are as many as before. */
  lemma {:induction false} BytesConserved(h: Heap, lo: int, hi: int, cs: seq<Call>)
    requires Partition(h, lo, hi) && LegalRun(h, cs)
    ensures Total(Run(h, cs)) == Total(h)
    decreases |cs|
  {
    hide Partition, Step, Legal, Total;
    if cs != [] {
      StepKeeps(h, lo, hi, cs[0]);
      StepConserves(h, lo, hi, cs[0]);
      BytesConserved(Step(h, cs[0]), lo, hi, cs[1..]);
    }
  }

  /** A block freed once is rejected by a second `freemem`. */
  lemma DoubleFreeRejected(l: seq<Blk>, lo: int, hi: int, b: Blk)
    requires Ordered(l, lo, hi) && 0 < b.len && lo <= b.addr && b.End() <= hi && !Clashes(l, b)
    ensures Clashes(GiveBack(l, b), b)
  {
    GiveBackOrdered(l, lo, hi, b);
    GiveBackBytes(l, b, b.addr);
    var m := GiveBack(l, b);
    var j :| 0 <= j < |m| && m[j].Holds(b.addr);
    assert !m[j].Apart(b);
    ClashesIffOverlaps(m, lo, hi, b);
  }

  /** Every byte of block b was free in list l and is not free in list m: b has been handed out whole. */
  ghost predicate Handed(l: seq<Blk>, m: seq<Blk>, b: Blk) {
    forall x :: b.Holds(x) ==> Free(l, x) && !Free(m, x)
  }

  /** A successful `getmem` hands out all the bytes asked for if and only if the size does not exceed 2^64 - 8. */
  lemma GetMemHandsIff(l: seq<Blk>, lo: int, hi: int, nbytes: int)
    requires Ordered(l, lo, hi) && 0 < nbytes < WORD64 && FirstFit(l, RoundMb(nbytes)) < |l|
    ensures var n := RoundMb(nbytes);
            var i := FirstFit(l, n);
            Handed(l, CutFront(l, i, n), Blk(l[i].addr, nbytes)) <==> nbytes <= WORD64 - 8
  {
    RoundMbIff(nbytes);
    hide RoundMb, CutFront, Ordered;
    var n := RoundMb(nbytes);
    var i := FirstFit(l, n);
    var b := Blk(l[i].addr, nbytes);
    CutFrontBytes(l, lo, hi, i, n, l[i].addr);
    if nbytes <= WORD64 - 8 {
      forall x | b.Holds(x) ensures Free(l, x) && !Free(CutFront(l, i, n), x) {
        assert l[i].Holds(x);
        CutFrontBytes(l, lo, hi, i, n, x);
      }
    } else {
      FirstByteFree(l, lo, hi, i);
      assert b.Holds(l[i].addr);
    }
  }

  lemma FirstByteFree(l: seq<Blk>, lo: int, hi: int, i: nat)
    requires Ordered(l, lo, hi) && i < |l|
    ensures Free(l, l[i].addr)
  {
    assert l[i].Holds(l[i].addr);
  }

  /** For instance, a request for 2^64 - 1 bytes takes nothing off a heap of one block of eight. */
  lemma LargestRequest()
    ensures var l, n := [Blk(8, 8)], RoundMb(WORD64 - 1);
            FirstFit(l, n) == 0 && CutFront(l, 0, n) == l && !Handed(l, CutFront(l, 0, n), Blk(8, WORD64 - 1))
  {
    var l := [Blk(8, 8)];
    RoundMbIff(WORD64 - 1);
    GetMemHandsIff(l, 8, 16, WORD64 - 1);
  }

  // Round trips

  /** `getmem` then `freemem` of the same block is accepted and restores exactly the free bytes. */
  lemma GetMemRoundTrip(l: seq<Blk>, lo: int, hi: int, n: int, x: int)
    requires Ordered(l, lo, hi) && 0 < n && FirstFit(l, n) < |l|
    ensures var i := FirstFit(l, n);
            var m, b := CutFront(l, i, n), Blk(l[i].addr, n);
            !Clashes(m, b) && (Free(GiveBack(m, b), x) <==> Free(l, x))
  {
    var i := FirstFit(l, n);
    var m, b := CutFront(l, i, n), Blk(l[i].addr, n);
    CutFrontOrdered(l, lo, hi, i, n);
    TakenNoClash(l, m, lo, hi, b) by {
      forall y ensures Free(m, y) <==> Free(l, y) && !b.Holds(y) { CutFrontBytes(l, lo, hi, i, n, y); }
    }
    GiveBackBytes(m, b, x);
    CutFrontBytes(l, lo, hi, i, n, x);
    if b.Holds(x) { assert l[i].Holds(x); }
  }

  /** `getstk` then `freestk`, with the address that the macro computes from the returned pointer, likewise. */
  lemma GetStkRoundTrip(l: seq<Blk>, lo: int, hi: int, nbytes: int, x: int)
    requires Ordered(l, lo, hi) && 0 < nbytes <= WORD64 - 8 && LastFit(l, RoundMb(nbytes)) < |l|
    ensures var n := RoundMb(nbytes);
            var i := LastFit(l, n);
            var m, b := CutBack(l, i, n), StkBlock(l[i].End() - 8, nbytes);
            !Clashes(m, b) && (Free(GiveBack(m, b), x) <==> Free(l, x))
  {
    hide RoundMb, Clashes, GiveBack, CutBack;
    RoundMbIff(nbytes);
    CutBackRoundTrip(l, lo, hi, RoundMb(nbytes), LastFit(l, RoundMb(nbytes)), x);
  }

  lemma CutBackRoundTrip(l: seq<Blk>, lo: int, hi: int, n: int, i: nat, x: int)
    requires Ordered(l, lo, hi) && 0 < n && i < |l| && l[i].len >= n
    ensures var m, b := CutBack(l, i, n), Blk(l[i].End() - n, n);
            !Clashes(m, b) && (Free(GiveBack(m, b), x) <==> Free(l, x))
  {
    var m, b := CutBack(l, i, n), Blk(l[i].End() - n, n);
    CutBackOrdered(l, lo, hi, i, n);
    TakenNoClash(l, m, lo, hi, b) by {
      forall y ensures Free(m, y) <==> Free(l, y) && !b.Holds(y) { CutBackBytes(l, lo, hi, i, n, y); }
    }
    GiveBackBytes(m, b, x);
    CutBackBytes(l, lo, hi, i, n, x);
    if b.Holds(x) { assert l[i].Holds(x); }
  }

  lemma TakenNoClash(l: seq<Blk>, m: seq<Blk>, lo: int, hi: int, b: Blk)
    requires Ordered(m, lo, hi) && 0 < b.len
    requires forall y :: Free(m, y) <==> Free(l, y) && !b.Holds(y)
    ensures !Clashes(m, b)
  {
    ClashesIffOverlaps(m, lo, hi, b);
    forall j | 0 <= j < |m|
      ensures m[j].Apart(b)
    {
      ApartIff(m[j], b);
      forall y ensures !(m[j].Holds(y) && b.Holds(y)) {
        if m[j].Holds(y) { assert Free(m, y); }
      }
    }
  }

  /** Block i has a predecessor that ends where it starts. */
  ghost predicate Touches(l: seq<Blk>, i: nat)
    requires i < |l|
  {
    i > 0 && l[i - 1].End() == l[i].addr
  }

  lemma {:induction false} BelowIs(l: seq<Blk>, a: int, i: nat)
    requires i <= |l| && (forall j :: 0 <= j < i ==> l[j].addr < a) && (i < |l| ==> l[i].addr >= a)
    ensures Below(l, a) == i
  {
    if i > 0 {
      BelowIs(l[1..], a, i - 1);
    }
  }

  /** The node list itself comes back after `getstk` and `freestk` exactly when `getstk` split a node, or took a whole
      node that did not touch its predecessor. */
  lemma GetStkListIff(l: seq<Blk>, lo: int, hi: int, n: int, i: nat)
    requires Ordered(l, lo, hi) && 0 < n && i < |l| && l[i].len >= n
    ensures GiveBack(CutBack(l, i, n), Blk(l[i].End() - n, n)) == l <==> l[i].len > n || !Touches(l, i)
  {
    hide Ordered, GiveBack, RemoveAt, Touches;
    if l[i].len > n {
      SplitBack(l, lo, hi, n, i);
    } else {
      WholeNode(l, lo, hi, i);
    }
  }

  // Cutting the top off a node and giving it back.
  lemma SplitBack(l: seq<Blk>, lo: int, hi: int, n: int, i: nat)
    requires Ordered(l, lo, hi) && 0 < n && i < |l| && l[i].len > n
    ensures GiveBack(CutBack(l, i, n), Blk(l[i].End() - n, n)) == l
  {
    var m, a := CutBack(l, i, n), l[i].End() - n;
    assert m == l[i := Blk(l[i].addr, l[i].len - n)];
    BelowIs(m, a, i + 1);
    assert m[i].End() == a;
  }

  /** After `getmem` and `freemem` it comes back exactly when `getmem` took a whole node that did not touch its
      predecessor: a split node is never joined again from above. */
  lemma GetMemListIff(l: seq<Blk>, lo: int, hi: int, n: int, i: nat)
    requires Ordered(l, lo, hi) && 0 < n && i < |l| && l[i].len >= n
    ensures GiveBack(CutFront(l, i, n), Blk(l[i].addr, n)) == l <==> l[i].len == n && !Touches(l, i)
  {
    var m, a := CutFront(l, i, n), l[i].addr;
    if l[i].len > n {
      BelowIs(m, a, i);
      assert m[i] != l[i];
    } else {
      WholeNode(l, lo, hi, i);
    }
  }

  // Taking a whole node and giving it back.
  lemma WholeNode(l: seq<Blk>, lo: int, hi: int, i: nat)
    requires Ordered(l, lo, hi) && i < |l|
    ensures GiveBack(RemoveAt(l, i), l[i]) == l <==> !Touches(l, i)
  {
    var m := RemoveAt(l, i);
    BelowIs(m, l[i].addr, i);
    assert InsertAt(m, i, l[i]) == l;
    assert |m| == |l| - 1;
  }
}
