/** The parts of `lfsetup` on the represented store: each keeps the representation, and moves blocks between chains and
    free lists as its step in FsState says. */
module FsOps {
  import opened Types
  import opened Lists
  import opened FsDisk
  import opened FsState
  import opened FsRep

  // Flush

  function FlushedDisk(disk: seq<Sector>, c: Lflcblk): seq<Sector> {
    var disk1 := if c.lfdbdirty then WriteAt(disk, c.lfdnum, c.lfdblock) else disk;
    if c.lfibdirty then StoreIb(disk1, c.lfinum, c.lfiblock) else disk1
  }

  /** `lfflush` leaves the mark of the data block set. */
  function Flushed(s: Store, f: nat): Store
    requires f < |s.cbs|
  {
    s.(disk := FlushedDisk(s.disk, s.cbs[f]), cbs := s.cbs[f := s.cbs[f].(lfibdirty := false)])
  }

  // The index block that a flush writes, if any.
  function Written(c: Lflcblk): seq<int> {
    if c.lfibdirty then [c.lfinum] else []
  }

  lemma FlushedSame(s: Store, lo: int, f: nat)
    requires Rep(s, lo) && f < |s.fs.files|
    ensures SameBut(s.disk, Flushed(s, f).disk, lo, Written(s.cbs[f]), [s.cbs[f].lfdnum])
    ensures s.cbs[f].lfibdirty ==>
      InIndex(lo, s.cbs[f].lfinum) && IbAt(Flushed(s, f).disk, s.cbs[f].lfinum) == s.cbs[f].lfiblock
  {
    hide Rep, Partition, FreeI, FreeD, Content;
    RepParts(s, lo, f);
    var c := s.cbs[f];
    var disk1, xs := if c.lfdbdirty then WriteAt(s.disk, c.lfdnum, c.lfdblock) else s.disk, Written(c);
    WriteSame(s.disk, lo, c.lfdnum, c.lfdblock, xs, [c.lfdnum]);
    SameSelf(s.disk, lo, xs, [c.lfdnum]);
    if c.lfibdirty {
      assert BlockOk(s.disk, lo, s.cur[f], s.fs.files[f], s.cur[f]);
      PutSame(disk1, lo, c.lfinum, c.lfiblock, xs, [c.lfdnum]);
      hide IbAt, PutIb;
      SameButTrans(s.disk, disk1, FlushedDisk(s.disk, c), lo, xs, [c.lfdnum]);
    }
  }

  lemma SameSelf(disk: seq<Sector>, lo: int, xs: seq<int>, ds: seq<int>)
    requires 0 <= lo <= |disk|
    ensures SameBut(disk, disk, lo, xs, ds)
  {
  }

  // The in-memory index block of f, and its current data block, are its own.
  lemma MemoryApart(s: Store, lo: int, f: nat)
    requires Rep(s, lo) && f < |s.fs.files|
    ensures var c, bs := s.cbs[f], s.fs.files[f];
            && (c.lfinum != LF_INULL ==> c.lfinum in Ids(bs))
            && (forall x :: x in s.fs.ifree ==> x != c.lfinum)
            && (forall d :: d in s.fs.dfree ==> d != c.lfdnum)
  {
    RepParts(s, lo, f);
    var c, bs := s.cbs[f], s.fs.files[f];
    if s.cur[f] != -1 { assert Ids(bs)[s.cur[f]] == c.lfinum; }
    FreeApart(s.fs, f, c.lfinum);
    FreeApart(s.fs, f, c.lfdnum);
    NotNull(s.fs, f);
  }

  lemma FlushedFile(s: Store, lo: int, f: nat)
    requires Rep(s, lo) && f < |s.fs.files|
    ensures var s' := Flushed(s, f);
            FileOk(s'.disk, lo, s.dir.lfd_files[f].ld_ilist, s'.cbs[f], s.cur[f], s.fs.files[f])
  {
    hide Rep, Partition, FreeI, FreeD, IbAt, FlushedDisk, Data, Content;
    RepParts(s, lo, f);
    var c, bs, disk' := s.cbs[f], s.fs.files[f], Flushed(s, f).disk;
    FlushedSame(s, lo, f);
    AllNoDup(s.fs, f);
    forall k | 0 <= k < |bs|
      ensures BlockOk(disk', lo, -1, bs, k)
    {
      assert BlockOk(s.disk, lo, DirtyAt(c, s.cur[f]), bs, k);
      if k != s.cur[f] && s.cur[f] != -1 {
        assert Ids(bs)[k] != Ids(bs)[s.cur[f]];
      }
    }
  }

  lemma FlushOk(s: Store, lo: int, f: nat)
    requires Rep(s, lo) && f < |s.fs.files|
    ensures Rep(Flushed(s, f), lo)
    ensures SameBut(s.disk, Flushed(s, f).disk, lo, Written(s.cbs[f]), [s.cbs[f].lfdnum])
  {
    hide Rep, Partition, IbAt, FlushedDisk, Data, FreeI, FreeD, FileOk, SameBut;
    RepParts(s, lo, f);
    var c, bs, s' := s.cbs[f], s.fs.files[f], Flushed(s, f);
    FlushedSame(s, lo, f);
    MemoryApart(s, lo, f);
    FlushedFile(s, lo, f);
    FreeIFrame(s.disk, s'.disk, lo, Written(c), [c.lfdnum], s.dir.lfd_ifree, s.fs.ifree);
    FreeDFrame(s.disk, s'.disk, lo, Written(c), [c.lfdnum], s.dir.lfd_dfree, s.fs.dfree);
    RepChanged(s, s', lo, f, Written(c), [c.lfdnum]);
  }

  // A new index block at the end of the chain, so far only in memory

  /** The disk after the new block has been linked behind the last one. */
  function LinkedDisk(disk: seq<Sector>, c: Lflcblk, n: nat, x: int): seq<Sector> {
    if n == 0 then disk else StoreIb(disk, c.lfinum, c.lfiblock.(next := x))
  }

  function NewBlock(s: Store, f: nat, lfdnum: int): Store
    requires f < |s.fs.files| && |s.dir.lfd_files| == |s.cbs| == |s.cur| == |s.fs.files| && s.fs.ifree != []
    requires OnDisk(s.disk, s.fs.ifree[0])
  {
    var x, c, n := s.fs.ifree[0], s.cbs[f], |s.fs.files[f]|;
    var en := s.dir.lfd_files[f];
    Store(LinkedDisk(s.disk, c, n, x),
          s.dir.(lfd_ifree := IbAt(s.disk, x).next,
                 lfd_files := s.dir.lfd_files[f := if n == 0 then en.(ld_ilist := x) else en]),
          s.cbs[f := c.(lfinum := x, lfiblock := Cleared(n * LF_IDATA), lfibdirty := true, lfdnum := lfdnum)],
          s.cur[f := n],
          AddBlock(s.fs, f))
  }

  lemma FreeINext(disk: seq<Sector>, lo: int, head: int, l: seq<int>)
    requires FreeI(disk, lo, head, l) && l != [] && 0 <= lo <= |disk|
    ensures head == l[0] && OnDisk(disk, head) && InIndex(lo, head) && FreeI(disk, lo, IbAt(disk, head).next, l[1..])
  {
    hide IbAt;
    assert INode(disk, lo, l[0], At(l, 1));
    forall k | 0 <= k < |l[1..]| ensures INode(disk, lo, l[1..][k], At(l[1..], k + 1)) {
      assert INode(disk, lo, l[k + 1], At(l, k + 2));
    }
  }

  lemma FreeDNext(disk: seq<Sector>, lo: int, head: int, l: seq<int>)
    requires FreeD(disk, lo, head, l) && l != [] && 0 <= lo <= |disk|
    ensures head == l[0] && lo <= head < |disk| && FreeD(disk, lo, NextDb(disk, head), l[1..])
  {
    assert DNode(disk, lo, l[0], At(l, 1));
    forall k | 0 <= k < |l[1..]| ensures DNode(disk, lo, l[1..][k], At(l[1..], k + 1)) {
      assert DNode(disk, lo, l[k + 1], At(l, k + 2));
    }
  }

  // The last block of the chain is in memory (or there is none).
  ghost predicate AtEnd(s: Store, f: nat)
    requires f < |s.fs.files| == |s.cur|
  {
    s.cur[f] == |s.fs.files[f]| - 1
  }

  lemma NewBlockSame(s: Store, lo: int, f: nat)
    requires Rep(s, lo) && f < |s.fs.files| && AtEnd(s, f)
    ensures var c, bs := s.cbs[f], s.fs.files[f];
            forall x :: SameBut(s.disk, LinkedDisk(s.disk, c, |bs|, x), lo, [c.lfinum], [])
              && (bs != [] ==> InIndex(lo, c.lfinum))
              && (bs != [] ==> IbAt(LinkedDisk(s.disk, c, |bs|, x), c.lfinum) == c.lfiblock.(next := x))
  {
    RepParts(s, lo, f);
    var c, bs := s.cbs[f], s.fs.files[f];
    forall x
      ensures SameBut(s.disk, LinkedDisk(s.disk, c, |bs|, x), lo, [c.lfinum], [])
              && (bs != [] ==> InIndex(lo, c.lfinum))
              && (bs != [] ==> IbAt(LinkedDisk(s.disk, c, |bs|, x), c.lfinum) == c.lfiblock.(next := x))
    {
      if bs == [] {
        SameSelf(s.disk, lo, [c.lfinum], []);
      } else {
        assert BlockOk(s.disk, lo, DirtyAt(c, s.cur[f]), bs, s.cur[f]);
        PutSame(s.disk, lo, c.lfinum, c.lfiblock.(next := x), [c.lfinum], []);
      }
    }
  }

  lemma NewBlockFile(s: Store, lo: int, f: nat, lfdnum: int)
    requires Rep(s, lo) && f < |s.fs.files| && AtEnd(s, f) && s.fs.ifree != [] && OnDisk(s.disk, s.fs.ifree[0])
    requires lfdnum == LF_DNULL || lfdnum == s.cbs[f].lfdnum
    ensures var s' := NewBlock(s, f, lfdnum);
            FileOk(s'.disk, lo, s'.dir.lfd_files[f].ld_ilist, s'.cbs[f], s'.cur[f], s'.fs.files[f])
  {
    hide Rep, Partition, FreeI, FreeD, IbAt, LinkedDisk, Data, NoData;
    RepParts(s, lo, f);
    var c, bs, x, s' := s.cbs[f], s.fs.files[f], s.fs.ifree[0], NewBlock(s, f, lfdnum);
    var bs' := bs + [FBlk(x, NoData())];
    NewBlockSame(s, lo, f);
    AllNoDup(s.fs, f);
    FreeINext(s.disk, lo, s.dir.lfd_ifree, s.fs.ifree);
    SameData(bs, x);
    forall k | 0 <= k < |bs'|
      ensures BlockOk(s'.disk, lo, |bs|, bs', k)
    {
      if k < |bs| {
        assert BlockOk(s.disk, lo, DirtyAt(c, s.cur[f]), bs, k);
        if k < |bs| - 1 { assert Ids(bs)[k] != Ids(bs)[|bs| - 1]; }
      }
    }
  }

  lemma SameData(bs: seq<FBlk>, x: int)
    ensures Data(bs + [FBlk(x, NoData())]) == Data(bs)
  {
    var bs' := bs + [FBlk(x, NoData())];
    assert bs'[..|bs|] == bs;
    NoDataUsed();
  }

  lemma NewBlockOk(s: Store, lo: int, f: nat, lfdnum: int)
    requires Rep(s, lo) && f < |s.fs.files| && AtEnd(s, f) && s.fs.ifree != []
    requires lfdnum == LF_DNULL || lfdnum == s.cbs[f].lfdnum
    ensures OnDisk(s.disk, s.fs.ifree[0]) && s.dir.lfd_ifree == s.fs.ifree[0]
    ensures Rep(NewBlock(s, f, lfdnum), lo)
    ensures SameBut(s.disk, NewBlock(s, f, lfdnum).disk, lo, [s.cbs[f].lfinum], [])
  {
    hide Rep, Partition, IbAt, LinkedDisk, Data, FreeI, FreeD, FileOk, SameBut, NoData;
    RepParts(s, lo, f);
    FreeINext(s.disk, lo, s.dir.lfd_ifree, s.fs.ifree);
    var c, s' := s.cbs[f], NewBlock(s, f, lfdnum);
    NewBlockSame(s, lo, f);
    NewBlockFile(s, lo, f, lfdnum);
    MemoryApart(s, lo, f);
    forall x | x in s'.fs.ifree ensures x in s.fs.ifree {}
    FreeIFrame(s.disk, s'.disk, lo, [c.lfinum], [], s'.dir.lfd_ifree, s'.fs.ifree);
    FreeDFrame(s.disk, s'.disk, lo, [c.lfinum], [], s.dir.lfd_dfree, s.fs.dfree);
    AddBlockKeeps(s.fs, f);
    SamePartition(s.fs, s'.fs);
    RepChanged(s, s', lo, f, [c.lfinum], []);
  }

  // Another block of the chain into memory

  function Loaded(s: Store, f: nat, k: nat, lfdnum: int): Store
    requires f < |s.fs.files| && |s.cbs| == |s.cur| == |s.fs.files| && k < |s.fs.files[f]|
    requires OnDisk(s.disk, s.fs.files[f][k].id)
  {
    var x := s.fs.files[f][k].id;
    s.(cbs := s.cbs[f := s.cbs[f].(lfinum := x, lfiblock := IbAt(s.disk, x), lfdnum := lfdnum)], cur := s.cur[f := k])
  }

  lemma LoadOk(s: Store, lo: int, f: nat, k: nat, lfdnum: int)
    requires Rep(s, lo) && f < |s.fs.files| && k < |s.fs.files[f]| && !s.cbs[f].lfibdirty
    requires lfdnum == LF_DNULL || lfdnum == s.cbs[f].lfdnum
    ensures OnDisk(s.disk, s.fs.files[f][k].id) && Rep(Loaded(s, f, k, lfdnum), lo)
  {
    hide Rep, Partition, FreeI, FreeD, IbAt, Data, SameBut, Content;
    RepParts(s, lo, f);
    var bs := s.fs.files[f];
    assert BlockOk(s.disk, lo, -1, bs, k);
    SameSelf(s.disk, lo, [], []);
    hide ChainOk;
    RepChanged(s, Loaded(s, f, k, lfdnum), lo, f, [], []);
  }

  // A data block

  lemma {:induction false} UsedHas(dba: seq<int>, e: nat)
    requires e < |dba| && dba[e] != LF_DNULL
    ensures dba[e] in Used(dba)
  {
    if e < |dba| - 1 { UsedHas(dba[..|dba| - 1], e); }
  }

  lemma {:induction false} DataHas(bs: seq<FBlk>, k: nat, e: nat)
    requires k < |bs| && e < LF_IBLEN && bs[k].dba[e] != LF_DNULL
    ensures bs[k].dba[e] in Data(bs)
  {
    var n := |bs| - 1;
    if k == n {
      UsedHas(bs[k].dba, e);
    } else {
      DataHas(bs[..n], k, e);
    }
  }

  /** `lfdballoc` for entry e of the block in memory. */
  function NewData(s: Store, f: nat, e: nat, lfdblock: Sector): Store
    requires f < |s.fs.files| && |s.cbs| == |s.cur| == |s.fs.files| && s.fs.dfree != [] && e < LF_IBLEN
    requires 0 <= s.cur[f] < |s.fs.files[f]| && 0 <= s.fs.dfree[0] < |s.disk|
  {
    var c, d := s.cbs[f], s.fs.dfree[0];
    var b := c.lfiblock;
    s.(dir := s.dir.(lfd_dfree := NextDb(s.disk, d)),
       cbs := s.cbs[f := c.(lfiblock := b.(dba := b.dba[e := d]), lfibdirty := true, lfdnum := d, lfdblock := lfdblock)],
       fs := AddData(s.fs, f, s.cur[f], e))
  }

  lemma NewDataFile(s: Store, lo: int, f: nat, e: nat, lfdblock: Sector)
    requires Rep(s, lo) && f < |s.fs.files| && s.fs.dfree != [] && e < LF_IBLEN
    requires 0 <= s.cur[f] < |s.fs.files[f]| && lo <= s.fs.dfree[0] < |s.disk| && s.fs.dfree[0] != LF_DNULL
    requires s.fs.files[f][s.cur[f]].dba[e] == LF_DNULL
    ensures var s' := NewData(s, f, e, lfdblock);
            FileOk(s'.disk, lo, s'.dir.lfd_files[f].ld_ilist, s'.cbs[f], s'.cur[f], s'.fs.files[f])
  {
    hide Rep, Partition, FreeI, FreeD, IbAt, Data;
    RepParts(s, lo, f);
    var c, bs, d, k, s' := s.cbs[f], s.fs.files[f], s.fs.dfree[0], s.cur[f], NewData(s, f, e, lfdblock);
    var bs' := s'.fs.files[f];
    assert Ids(bs') == Ids(bs);
    AddedIn(s.disk, lo, bs, k, e, d);
    assert bs' == bs[k := bs[k].(dba := bs[k].dba[e := d])];
    hide Ids, DataIn;
    forall j | 0 <= j < |bs'|
      ensures BlockOk(s'.disk, lo, k, bs', j)
    {
      assert BlockOk(s.disk, lo, DirtyAt(c, k), bs, j);
    }
  }

  lemma AddedIn(disk: seq<Sector>, lo: int, bs: seq<FBlk>, k: nat, e: nat, d: int)
    requires k < |bs| && e < LF_IBLEN && bs[k].dba[e] == LF_DNULL && d != LF_DNULL
    requires DataIn(disk, lo, bs) && lo <= d < |disk|
    ensures var bs' := bs[k := bs[k].(dba := bs[k].dba[e := d])];
            DataIn(disk, lo, bs') && forall x :: x == d || x in Data(bs) ==> x in Data(bs')
  {
    hide Data;
    var bs' := bs[k := bs[k].(dba := bs[k].dba[e := d])];
    forall x
      ensures x in Data(bs') <==> x in Data(bs) || x == d
    {
      DataSet(bs, k, e, d, x);
      assert (x in Data(bs') <==> x in multiset(Data(bs'))) && (x in Data(bs) <==> x in multiset(Data(bs)));
    }
  }

  lemma NewDataOk(s: Store, lo: int, f: nat, e: nat, lfdblock: Sector)
    requires Rep(s, lo) && f < |s.fs.files| && s.fs.dfree != [] && e < LF_IBLEN
    requires 0 <= s.cur[f] < |s.fs.files[f]| && s.fs.files[f][s.cur[f]].dba[e] == LF_DNULL
    ensures 0 <= s.fs.dfree[0] < |s.disk| && s.dir.lfd_dfree == s.fs.dfree[0]
    ensures Rep(NewData(s, f, e, lfdblock), lo)
  {
    hide Rep, Partition, FreeI, FreeD, FileOk, Data, SameBut;
    RepParts(s, lo, f);
    FreeDNext(s.disk, lo, s.dir.lfd_dfree, s.fs.dfree);
    NotNull(s.fs, f);
    NewDataFile(s, lo, f, e, lfdblock);
    AddDataKeeps(s.fs, f, s.cur[f], e);
    var s' := NewData(s, f, e, lfdblock);
    SamePartition(s.fs, s'.fs);
    SameSelf(s.disk, lo, [], []);
    RepChanged(s, s', lo, f, [], []);
  }

  /** The data block of entry e read into memory, or found there. */
  lemma ReadOk(s: Store, lo: int, f: nat, e: nat, c': Lflcblk)
    requires Rep(s, lo) && f < |s.fs.files| && e < LF_IBLEN && 0 <= s.cur[f] < |s.fs.files[f]|
    requires c' == s.cbs[f].(lfdnum := c'.lfdnum, lfdblock := c'.lfdblock, lfdbdirty := c'.lfdbdirty)
    requires c'.lfdnum == s.fs.files[f][s.cur[f]].dba[e] != LF_DNULL
    ensures 0 <= c'.lfdnum < |s.disk| && Rep(s.(cbs := s.cbs[f := c']), lo)
  {
    hide Rep, Partition, FreeI, FreeD, ChainOk, Data, SameBut, Content;
    RepParts(s, lo, f);
    DataHas(s.fs.files[f], s.cur[f], e);
    SameSelf(s.disk, lo, [], []);
    RepChanged(s, s.(cbs := s.cbs[f := c']), lo, f, [], []);
  }
}
