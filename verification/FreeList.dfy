/** The heap's free list (Chapter 9) as a sequence of blocks: what each call does to it, and what that means for bytes.
    */
module FreeList {
  import opened Types
  import opened Lists

  const WORD64 := 0x1_0000_0000_0000_0000

  /** `roundmb`, on a C `uint64`: up to a multiple of eight, wrapping at the top. */
  function RoundMb(x: int): int
    requires 0 <= x < WORD64
  {
    (x + 7) % WORD64 / 8 * 8
  }

  /** roundmb(x) is the least multiple of eight not below x if and only if x does not exceed 2^64 - 8; above, it is 0.
      */
  lemma RoundMbIff(x: int)
    requires 0 <= x < WORD64
    ensures RoundMb(x) % 8 == 0 && 0 <= RoundMb(x)
    ensures x <= RoundMb(x) < x + 8 <==> x <= WORD64 - 8
    ensures x > WORD64 - 8 ==> RoundMb(x) == 0
  {
  }

  lemma RoundMbTwice(x: int)
    requires 0 <= x < WORD64
    ensures 0 <= RoundMb(x) <= WORD64 - 8 && RoundMb(RoundMb(x)) == RoundMb(x)
  {
  }

  datatype Blk = Blk(addr: int, len: int) {
    function End(): int {
      addr + len
    }

    predicate Holds(x: int) {
      addr <= x < End()
    }

    predicate Apart(b: Blk) {
      End() <= b.addr || b.End() <= addr
    }
  }

  /** Address-ordered, disjoint and non-empty blocks inside the heap. */
  ghost predicate Ordered(l: seq<Blk>, lo: int, hi: int) {
    && (forall i :: 0 <= i < |l| ==> lo <= l[i].addr && 0 < l[i].len && l[i].End() <= hi)
    && (forall i, j :: 0 <= i < j < |l| ==> l[i].End() <= l[j].addr)
  }

  ghost predicate Free(l: seq<Blk>, x: int) {
    exists i :: 0 <= i < |l| && l[i].Holds(x)
  }

  function Bytes(l: seq<Blk>): int {
    if l == [] then 0 else l[0].len + Bytes(l[1..])
  }

  // First fit and last fit: the index of the chosen block, or |l|.

  function FirstFit(l: seq<Blk>, n: int): (i: nat)
    ensures i <= |l| && (i < |l| ==> l[i].len >= n) && forall j :: 0 <= j < i ==> l[j].len < n
  {
    if l == [] || l[0].len >= n then 0 else 1 + FirstFit(l[1..], n)
  }

  function LastFit(l: seq<Blk>, n: int): (i: nat)
    ensures i <= |l| && (i < |l| ==> l[i].len >= n && forall j :: i < j < |l| ==> l[j].len < n)
    ensures i == |l| ==> forall j :: 0 <= j < |l| ==> l[j].len < n
  {
    if l == [] then 0
    else if l[|l| - 1].len >= n then |l| - 1
    else
      var i := LastFit(l[..|l| - 1], n);
      if i == |l| - 1 then |l| else i
  }

  lemma LastFitIs(l: seq<Blk>, n: int, i: nat)
    requires i <= |l| && (i < |l| ==> l[i].len >= n)
    requires forall j :: 0 <= j < |l| && (i < |l| ==> i < j) ==> l[j].len < n
    ensures LastFit(l, n) == i
  {
    var k := LastFit(l, n);
    assert (i < |l| ==> l[i].len >= n) && (k < |l| ==> l[k].len >= n);
  }

  /** Takes the first n bytes of block i. */
  function CutFront(l: seq<Blk>, i: nat, n: int): seq<Blk>
    requires i < |l|
  {
    if l[i].len == n then RemoveAt(l, i) else l[i := Blk(l[i].addr + n, l[i].len - n)]
  }

  /** Takes the last n bytes of block i. */
  function CutBack(l: seq<Blk>, i: nat, n: int): seq<Blk>
    requires i < |l|
  {
    if l[i].len == n then RemoveAt(l, i) else l[i := Blk(l[i].addr, l[i].len - n)]
  }

  /** How many blocks start below address a. */
  function Below(l: seq<Blk>, a: int): (i: nat)
    ensures i <= |l|
  {
    if l == [] || l[0].addr >= a then 0 else 1 + Below(l[1..], a)
  }

  /** The test of `freemem` against the two neighbours of the freed block. */
  predicate Clashes(l: seq<Blk>, b: Blk) {
    var i := Below(l, b.addr);
    (i > 0 && b.addr < l[i - 1].End()) || (i < |l| && b.End() > l[i].addr)
  }

  /** Returns block b to the list, joining it to the block that ends where it starts. */
  function GiveBack(l: seq<Blk>, b: Blk): seq<Blk> {
    var i := Below(l, b.addr);
    if i > 0 && l[i - 1].End() == b.addr then l[i - 1 := Blk(l[i - 1].addr, l[i - 1].len + b.len)]
    else InsertAt(l, i, b)
  }

  lemma {:induction false} BelowSplits(l: seq<Blk>, lo: int, hi: int, a: int)
    requires Ordered(l, lo, hi)
    ensures var i := Below(l, a);
            && (forall j :: 0 <= j < i ==> l[j].addr < a)
            && (forall j :: i <= j < |l| ==> l[j].addr >= a)
  {
    if l != [] && l[0].addr < a {
      assert Ordered(l[1..], lo, hi);
      BelowSplits(l[1..], lo, hi, a);
      forall j | 1 <= j < Below(l, a) ensures l[j].addr < a { assert l[j] == l[1..][j - 1]; }
      forall j | Below(l, a) <= j < |l| ensures l[j].addr >= a { assert l[j] == l[1..][j - 1]; }
    }
  }

  /** The test against two neighbours is a test against the whole list: a block clashes if and only if it overlaps some
      free block anywhere. */
  lemma ClashesIffOverlaps(l: seq<Blk>, lo: int, hi: int, b: Blk)
    requires Ordered(l, lo, hi) && 0 < b.len
    ensures Clashes(l, b) <==> exists j :: 0 <= j < |l| && !l[j].Apart(b)
  {
    var i := Below(l, b.addr);
    BelowSplits(l, lo, hi, b.addr);
    if Clashes(l, b) {
      assert !l[if i > 0 && b.addr < l[i - 1].End() then i - 1 else i].Apart(b);
    }
  }

  // The list stays ordered

  lemma RemoveOrdered(l: seq<Blk>, lo: int, hi: int, i: nat)
    requires Ordered(l, lo, hi) && i < |l|
    ensures Ordered(RemoveAt(l, i), lo, hi)
  {
  }

  lemma CutFrontOrdered(l: seq<Blk>, lo: int, hi: int, i: nat, n: int)
    requires Ordered(l, lo, hi) && i < |l| && 0 <= n <= l[i].len
    ensures Ordered(CutFront(l, i, n), lo, hi)
  {
  }

  lemma CutBackOrdered(l: seq<Blk>, lo: int, hi: int, i: nat, n: int)
    requires Ordered(l, lo, hi) && i < |l| && 0 <= n <= l[i].len
    ensures Ordered(CutBack(l, i, n), lo, hi)
  {
  }

  lemma InsertOrdered(l: seq<Blk>, lo: int, hi: int, i: nat, b: Blk)
    requires Ordered(l, lo, hi) && i <= |l| && 0 < b.len && lo <= b.addr && b.End() <= hi
    requires forall j :: 0 <= j < i ==> l[j].End() <= b.addr
    requires forall j :: i <= j < |l| ==> b.End() <= l[j].addr
    ensures Ordered(InsertAt(l, i, b), lo, hi)
  {
    var m := InsertAt(l, i, b);
    forall x, y | 0 <= x < y < |m|
      ensures m[x].End() <= m[y].addr
    {
      InsertEntry(l, i, b, x);
      InsertEntry(l, i, b, y);
    }
  }

  // A block that does not clash lies between the blocks below it and the blocks above it.
  lemma NoClash(l: seq<Blk>, lo: int, hi: int, b: Blk)
    requires Ordered(l, lo, hi) && 0 < b.len && !Clashes(l, b)
    ensures forall j :: 0 <= j < Below(l, b.addr) ==> l[j].End() <= b.addr
    ensures forall j :: Below(l, b.addr) <= j < |l| ==> b.End() <= l[j].addr
  {
    hide Below;
    BelowSplits(l, lo, hi, b.addr);
    var i := Below(l, b.addr);
    forall j | i <= j < |l| ensures b.End() <= l[j].addr { assert j == i || l[i].End() <= l[j].addr; }
    forall j | 0 <= j < i ensures l[j].End() <= b.addr { assert j == i - 1 || l[j].End() <= l[i - 1].addr; }
  }

  lemma GiveBackOrdered(l: seq<Blk>, lo: int, hi: int, b: Blk)
    requires Ordered(l, lo, hi) && 0 < b.len && lo <= b.addr && b.End() <= hi && !Clashes(l, b)
    ensures Ordered(GiveBack(l, b), lo, hi)
  {
    var i := Below(l, b.addr);
    BelowSplits(l, lo, hi, b.addr);
    NoClash(l, lo, hi, b);
    if i > 0 && l[i - 1].End() == b.addr {
      ExtendOrdered(l, lo, hi, i - 1, b.len);
    } else {
      InsertOrdered(l, lo, hi, i, b);
    }
  }

  lemma ExtendOrdered(l: seq<Blk>, lo: int, hi: int, i: nat, n: int)
    requires Ordered(l, lo, hi) && i < |l| && 0 < n && l[i].End() + n <= hi
    requires i + 1 < |l| ==> l[i].End() + n <= l[i + 1].addr
    ensures Ordered(l[i := Blk(l[i].addr, l[i].len + n)], lo, hi)
  {
    forall j | i < j < |l|
      ensures l[i].End() + n <= l[j].addr
    {
      assert j == i + 1 || l[i + 1].End() <= l[j].addr;
    }
  }

  // What happens to the bytes

  // Entry j of a list after a removal.
  lemma RemoveEntry(l: seq<Blk>, i: nat, j: nat)
    requires i < |l| && j < |l| - 1
    ensures |RemoveAt(l, i)| == |l| - 1 && RemoveAt(l, i)[j] == l[if j >= i then j + 1 else j]
  {
  }

  lemma RemoveLength(l: seq<Blk>, i: nat)
    requires i < |l|
    ensures |RemoveAt(l, i)| == |l| - 1
  {
  }

  // Entry j of a list after an insertion.
  lemma InsertedEntry(l: seq<Blk>, i: nat, b: Blk, j: nat)
    requires i <= |l| && j <= |l|
    ensures var m := InsertAt(l, i, b);
            |m| == |l| + 1 && m[j] == if j < i then l[j] else if j == i then b else l[j - 1]
  {
    InsertEntry(l, i, b, j);
  }

  lemma OneHolder(l: seq<Blk>, lo: int, hi: int, i: nat, j: nat, x: int)
    requires Ordered(l, lo, hi) && i < |l| && j < |l| && l[i].Holds(x) && l[j].Holds(x)
    ensures i == j
  {
  }

  lemma RemovedBytes(l: seq<Blk>, lo: int, hi: int, i: nat, x: int)
    requires Ordered(l, lo, hi) && i < |l|
    ensures Free(RemoveAt(l, i), x) <==> Free(l, x) && !l[i].Holds(x)
  {
    hide Ordered;
    var m := RemoveAt(l, i);
    if Free(m, x) {
      var j :| 0 <= j < |m| && m[j].Holds(x);
      RemoveEntry(l, i, j);
      var t := if j >= i then j + 1 else j;
      assert l[t].Holds(x);
      if l[i].Holds(x) {
        OneHolder(l, lo, hi, i, t, x);
      }
    }
    if Free(l, x) && !l[i].Holds(x) {
      var j :| 0 <= j < |l| && l[j].Holds(x);
      var t := if j > i then j - 1 else j;
      RemoveEntry(l, i, t);
      assert m[t].Holds(x);
    }
  }

  lemma ReplacedBytes(l: seq<Blk>, lo: int, hi: int, i: nat, b: Blk, x: int)
    requires Ordered(l, lo, hi) && i < |l| && l[i].addr <= b.addr && b.End() <= l[i].End()
    ensures Free(l[i := b], x) <==> Free(l, x) && (l[i].Holds(x) ==> b.Holds(x))
  {
    var m := l[i := b];
    if Free(m, x) {
      var j :| 0 <= j < |m| && m[j].Holds(x);
      assert l[j].Holds(x);
    }
    if Free(l, x) && (l[i].Holds(x) ==> b.Holds(x)) {
      var j :| 0 <= j < |l| && l[j].Holds(x);
      assert m[j].Holds(x);
    }
  }

  lemma CutFrontBytes(l: seq<Blk>, lo: int, hi: int, i: nat, n: int, x: int)
    requires Ordered(l, lo, hi) && i < |l| && 0 <= n <= l[i].len
    ensures Free(CutFront(l, i, n), x) <==> Free(l, x) && !Blk(l[i].addr, n).Holds(x)
  {
    if l[i].len == n {
      RemovedBytes(l, lo, hi, i, x);
    } else {
      ReplacedBytes(l, lo, hi, i, Blk(l[i].addr + n, l[i].len - n), x);
    }
  }

  lemma CutBackBytes(l: seq<Blk>, lo: int, hi: int, i: nat, n: int, x: int)
    requires Ordered(l, lo, hi) && i < |l| && 0 <= n <= l[i].len
    ensures Free(CutBack(l, i, n), x) <==> Free(l, x) && !Blk(l[i].End() - n, n).Holds(x)
  {
    if l[i].len == n {
      RemovedBytes(l, lo, hi, i, x);
    } else {
      ReplacedBytes(l, lo, hi, i, Blk(l[i].addr, l[i].len - n), x);
    }
  }

  lemma GiveBackBytes(l: seq<Blk>, b: Blk, x: int)
    requires 0 <= b.len && forall i :: 0 <= i < |l| ==> 0 < l[i].len
    ensures Free(GiveBack(l, b), x) <==> Free(l, x) || b.Holds(x)
  {
    var m, i := GiveBack(l, b), Below(l, b.addr);
    var joined := i > 0 && l[i - 1].End() == b.addr;
    if Free(m, x) && !b.Holds(x) {
      var j :| 0 <= j < |m| && m[j].Holds(x);
      assert l[if !joined && j > i then j - 1 else j].Holds(x);
    }
    if b.Holds(x) {
      assert m[if joined then i - 1 else i].Holds(x);
    } else if Free(l, x) {
      var j :| 0 <= j < |l| && l[j].Holds(x);
      assert m[if !joined && j >= i then j + 1 else j].Holds(x);
    }
  }

  // The byte count

  lemma {:induction false} BytesAppend(a: seq<Blk>, b: seq<Blk>)
    ensures Bytes(a + b) == Bytes(a) + Bytes(b)
  {
    if a == [] {
      assert a + b == b;
    } else {
      assert (a + b)[1..] == a[1..] + b;
      BytesAppend(a[1..], b);
    }
  }

  lemma BytesSplit(l: seq<Blk>, i: nat)
    requires i < |l|
    ensures Bytes(l) == Bytes(l[..i]) + l[i].len + Bytes(l[i + 1..])
  {
    assert l == l[..i] + l[i..] && l[i..] == [l[i]] + l[i + 1..];
    BytesAppend(l[..i], l[i..]);
    BytesAppend([l[i]], l[i + 1..]);
  }

  lemma BytesUpdate(l: seq<Blk>, i: nat, b: Blk)
    requires i < |l|
    ensures Bytes(l[i := b]) == Bytes(l) - l[i].len + b.len
  {
    BytesSplit(l, i);
    BytesSplit(l[i := b], i);
    assert l[i := b][..i] == l[..i] && l[i := b][i + 1..] == l[i + 1..];
  }

  lemma RemoveBytes(l: seq<Blk>, i: nat)
    requires i < |l|
    ensures Bytes(RemoveAt(l, i)) == Bytes(l) - l[i].len
  {
    BytesSplit(l, i);
    BytesAppend(l[..i], l[i + 1..]);
  }

  lemma CutBytesCount(l: seq<Blk>, i: nat, n: int)
    requires i < |l|
    ensures Bytes(CutFront(l, i, n)) == Bytes(l) - n && Bytes(CutBack(l, i, n)) == Bytes(l) - n
  {
    hide Bytes;
    if l[i].len == n {
      RemoveBytes(l, i);
    } else {
      BytesUpdate(l, i, Blk(l[i].addr + n, l[i].len - n));
      BytesUpdate(l, i, Blk(l[i].addr, l[i].len - n));
    }
  }

  lemma InsertBytes(l: seq<Blk>, i: nat, b: Blk)
    requires i <= |l|
    ensures Bytes(InsertAt(l, i, b)) == Bytes(l) + b.len
  {
    var a, c := l[..i], l[i..];
    assert l == a + c;
    SplicedBytes(a, b, c);
  }

  lemma SplicedBytes(a: seq<Blk>, b: Blk, c: seq<Blk>)
    ensures Bytes(a + [b] + c) == Bytes(a + c) + b.len
  {
    assert Bytes([b]) == b.len + Bytes([]);
    hide Bytes;
    BytesAppend(a, c);
    BytesAppend(a, [b]);
    BytesAppend(a + [b], c);
    assert Bytes([]) == 0 by { BytesAppend([], []); }
  }

  lemma GiveBackCount(l: seq<Blk>, b: Blk)
    ensures Bytes(GiveBack(l, b)) == Bytes(l) + b.len
  {
    var i := Below(l, b.addr);
    if i > 0 && l[i - 1].End() == b.addr {
      BytesUpdate(l, i - 1, Blk(l[i - 1].addr, l[i - 1].len + b.len));
    } else {
      InsertBytes(l, i, b);
    }
  }
}
