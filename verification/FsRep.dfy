/** How the disk, the directory and the control blocks of open files represent chains and free lists (Chapter 19). */
module FsRep {
  import opened Types
  import opened Lists
  import opened FsDisk
  import opened FsState

  datatype Ldentry = Ldentry(ld_size: int, ld_ilist: int)

  datatype Lfdir = Lfdir(lfd_dfree: int, lfd_ifree: int, lfd_files: seq<Ldentry>)

  /** The control block of a file; lfinum is LF_INULL while no index block is in memory. */
  datatype Lflcblk = Lflcblk(
    lfpos: nat,
    lfinum: int,
    lfiblock: Iblk,
    lfdnum: int,
    lfdblock: Sector,
    lfibdirty: bool,
    lfdbdirty: bool)

  /** Index block x lies below the first data sector. */
  predicate InIndex(lo: int, x: int) {
    x >= 0 && Ib2Sect(x) < lo
  }

  ghost predicate INode(disk: seq<Sector>, lo: int, x: int, next: int) {
    InIndex(lo, x) && lo <= |disk| && IbAt(disk, x).next == next
  }

  ghost predicate DNode(disk: seq<Sector>, lo: int, d: int, next: int) {
    0 <= lo <= d < |disk| && NextDb(disk, d) == next
  }

  ghost predicate FreeI(disk: seq<Sector>, lo: int, head: int, l: seq<int>) {
    head == At(l, 0) && forall k :: 0 <= k < |l| ==> INode(disk, lo, l[k], At(l, k + 1))
  }

  ghost predicate FreeD(disk: seq<Sector>, lo: int, head: int, l: seq<int>) {
    head == At(l, 0) && forall k :: 0 <= k < |l| ==> DNode(disk, lo, l[k], At(l, k + 1))
  }

  /** What index block k of a chain contains: its offset is k times 8192. */
  function Content(bs: seq<FBlk>, k: nat): Iblk
    requires k < |bs|
  {
    Iblk(At(Ids(bs), k + 1), k * LF_IDATA, bs[k].dba)
  }

  /** Index block k is on the disk, unless it is the dirty one. */
  ghost predicate BlockOk(disk: seq<Sector>, lo: int, dirty: int, bs: seq<FBlk>, k: nat)
    requires k < |bs|
  {
    InIndex(lo, bs[k].id) && lo <= |disk| && (k == dirty || IbAt(disk, bs[k].id) == Content(bs, k))
  }

  ghost predicate ChainOk(disk: seq<Sector>, lo: int, dirty: int, bs: seq<FBlk>) {
    forall k :: 0 <= k < |bs| ==> BlockOk(disk, lo, dirty, bs, k)
  }

  ghost predicate DataIn(disk: seq<Sector>, lo: int, bs: seq<FBlk>) {
    0 <= lo && forall d :: d in Data(bs) ==> lo <= d < |disk|
  }

  /** The index block in memory is number `cur` of the chain, or there is none. */
  ghost predicate MemoryOk(c: Lflcblk, cur: int, bs: seq<FBlk>) {
    && (if cur == -1 then c.lfinum == LF_INULL && !c.lfibdirty
        else 0 <= cur < |bs| && c.lfinum == bs[cur].id && c.lfiblock == Content(bs, cur))
    && (c.lfdnum == LF_DNULL || c.lfdnum in Data(bs))
  }

  function DirtyAt(c: Lflcblk, cur: int): int {
    if c.lfibdirty then cur else -1
  }

  ghost predicate FileOk(disk: seq<Sector>, lo: int, head: int, c: Lflcblk, cur: int, bs: seq<FBlk>) {
    && head == At(Ids(bs), 0)
    && ChainOk(disk, lo, DirtyAt(c, cur), bs) && DataIn(disk, lo, bs) && MemoryOk(c, cur, bs)
  }

  /** The disk, the directory in memory, the control block of every file, the place in its chain of the index block in
      memory, and the files that all this represents. */
  datatype Store = Store(disk: seq<Sector>, dir: Lfdir, cbs: seq<Lflcblk>, cur: seq<int>, fs: Fs)

  ghost predicate Rep(s: Store, lo: int) {
    && 0 <= lo <= |s.disk| && |s.dir.lfd_files| == |s.cbs| == |s.cur| == |s.fs.files|
    && Partition(s.fs)
    && FreeI(s.disk, lo, s.dir.lfd_ifree, s.fs.ifree) && FreeD(s.disk, lo, s.dir.lfd_dfree, s.fs.dfree)
    && forall f :: 0 <= f < |s.fs.files| ==>
         FileOk(s.disk, lo, s.dir.lfd_files[f].ld_ilist, s.cbs[f], s.cur[f], s.fs.files[f])
  }

  // Which block is where

  lemma {:induction false} FlatHas(files: seq<seq<FBlk>>, f: nat, x: int)
    requires f < |files|
    ensures multiset(Ids(files[f]))[x] <= multiset(FlatIds(files))[x]
    ensures multiset(Data(files[f]))[x] <= multiset(FlatData(files))[x]
  {
    hide Ids, Data;
    if f > 0 { FlatHas(files[1..], f - 1, x); }
  }

  lemma {:induction false} FlatHasBoth(files: seq<seq<FBlk>>, f: nat, g: nat, x: int)
    requires f < g < |files|
    ensures multiset(Ids(files[f]))[x] + multiset(Ids(files[g]))[x] <= multiset(FlatIds(files))[x]
    ensures multiset(Data(files[f]))[x] + multiset(Data(files[g]))[x] <= multiset(FlatData(files))[x]
  {
    hide Ids, Data;
    assert FlatIds(files) == Ids(files[0]) + FlatIds(files[1..]);
    assert FlatData(files) == Data(files[0]) + FlatData(files[1..]);
    hide FlatIds, FlatData;
    if f > 0 {
      FlatHasBoth(files[1..], f - 1, g - 1, x);
    } else {
      FlatHas(files[1..], g - 1, x);
    }
  }

  lemma CountApart(a: seq<int>, b: seq<int>, x: int)
    requires multiset(a)[x] + multiset(b)[x] <= 1
    ensures !(x in a && x in b)
  {
    assert (x in a <==> x in multiset(a)) && (x in b <==> x in multiset(b));
  }

  lemma FilesApart(fs: Fs, f: nat, g: nat, x: int)
    requires Partition(fs) && f < |fs.files| && g < |fs.files| && f != g
    ensures !(x in Ids(fs.files[f]) && x in Ids(fs.files[g]))
    ensures !(x in Data(fs.files[f]) && x in Data(fs.files[g]))
  {
    if f < g { FlatHasBoth(fs.files, f, g, x); } else { FlatHasBoth(fs.files, g, f, x); }
    hide Ids, Data, FlatIds, FlatData;
    assert multiset(AllI(fs))[x] == multiset(fs.ifree)[x] + multiset(FlatIds(fs.files))[x];
    assert multiset(AllD(fs))[x] == multiset(fs.dfree)[x] + multiset(FlatData(fs.files))[x];
    CountApart(Ids(fs.files[f]), Ids(fs.files[g]), x);
    CountApart(Data(fs.files[f]), Data(fs.files[g]), x);
  }

  lemma FreeApart(fs: Fs, f: nat, x: int)
    requires Partition(fs) && f < |fs.files|
    ensures !(x in Ids(fs.files[f]) && x in fs.ifree)
    ensures !(x in Data(fs.files[f]) && x in fs.dfree)
  {
    FlatHas(fs.files, f, x);
    hide Ids, Data, FlatIds, FlatData;
    assert multiset(AllI(fs))[x] == multiset(fs.ifree)[x] + multiset(FlatIds(fs.files))[x];
    assert multiset(AllD(fs))[x] == multiset(fs.dfree)[x] + multiset(FlatData(fs.files))[x];
    CountApart(Ids(fs.files[f]), fs.ifree, x);
    CountApart(Data(fs.files[f]), fs.dfree, x);
  }

  lemma AllNoDup(fs: Fs, f: nat)
    requires Partition(fs) && f < |fs.files|
    ensures NoDup(fs.ifree) && NoDup(fs.dfree) && NoDup(Ids(fs.files[f])) && NoDup(Data(fs.files[f]))
  {
    forall x
      ensures multiset(fs.ifree)[x] <= 1 && multiset(fs.dfree)[x] <= 1
      ensures multiset(Ids(fs.files[f]))[x] <= 1 && multiset(Data(fs.files[f]))[x] <= 1
    {
      FlatHas(fs.files, f, x);
      hide Ids, Data, FlatIds, FlatData;
      assert multiset(AllI(fs))[x] == multiset(fs.ifree)[x] + multiset(FlatIds(fs.files))[x];
      assert multiset(AllD(fs))[x] == multiset(fs.dfree)[x] + multiset(FlatData(fs.files))[x];
    }
    OnceNoDup(fs.ifree);
    OnceNoDup(fs.dfree);
    OnceNoDup(Ids(fs.files[f]));
    OnceNoDup(Data(fs.files[f]));
  }

  // Frames

  /** Two disks that differ at most in the index blocks in `xs` and in the data sectors in `ds`. */
  ghost predicate SameBut(disk: seq<Sector>, disk': seq<Sector>, lo: int, xs: seq<int>, ds: seq<int>) {
    && 0 <= lo <= |disk| == |disk'|
    && (forall x :: InIndex(lo, x) && x !in xs ==> IbAt(disk', x) == IbAt(disk, x))
    && (forall d :: lo <= d < |disk| && d !in ds ==> disk'[d] == disk[d])
  }

  lemma SameButTrans(a: seq<Sector>, b: seq<Sector>, c: seq<Sector>, lo: int, xs: seq<int>, ds: seq<int>)
    requires SameBut(a, b, lo, xs, ds) && SameBut(b, c, lo, xs, ds)
    ensures SameBut(a, c, lo, xs, ds)
  {
    hide IbAt;
  }

  lemma PutSame(disk: seq<Sector>, lo: int, x: nat, b: Iblk, xs: seq<int>, ds: seq<int>)
    requires 0 <= lo <= |disk| && InIndex(lo, x) && x in xs
    ensures SameBut(disk, PutIb(disk, x, b), lo, xs, ds) && IbAt(PutIb(disk, x, b), x) == b
  {
    PutGet(disk, x, b, x);
    forall y | InIndex(lo, y) && y !in xs
      ensures IbAt(PutIb(disk, x, b), y) == IbAt(disk, y)
    {
      PutGet(disk, x, b, y);
    }
  }

  lemma WriteSame(disk: seq<Sector>, lo: int, d: int, s: Sector, xs: seq<int>, ds: seq<int>)
    requires 0 <= lo <= |disk| && (0 <= d < |disk| ==> lo <= d && d in ds)
    ensures SameBut(disk, WriteAt(disk, d, s), lo, xs, ds)
  {
    var disk' := WriteAt(disk, d, s);
    forall y | InIndex(lo, y)
      ensures IbAt(disk', y) == IbAt(disk, y)
    {
      assert disk'[Ib2Sect(y)] == disk[Ib2Sect(y)];
    }
  }

  lemma FreeIFrame(disk: seq<Sector>, disk': seq<Sector>, lo: int, xs: seq<int>, ds: seq<int>, head: int, l: seq<int>)
    requires FreeI(disk, lo, head, l) && SameBut(disk, disk', lo, xs, ds)
    requires forall x :: x in l ==> x !in xs
    ensures FreeI(disk', lo, head, l)
  {
    hide IbAt;
    forall k | 0 <= k < |l| ensures INode(disk', lo, l[k], At(l, k + 1)) {
      assert INode(disk, lo, l[k], At(l, k + 1));
    }
  }

  lemma FreeDFrame(disk: seq<Sector>, disk': seq<Sector>, lo: int, xs: seq<int>, ds: seq<int>, head: int, l: seq<int>)
    requires FreeD(disk, lo, head, l) && SameBut(disk, disk', lo, xs, ds)
    requires forall d :: d in l ==> d !in ds
    ensures FreeD(disk', lo, head, l)
  {
    hide IbAt;
    forall k | 0 <= k < |l| ensures DNode(disk', lo, l[k], At(l, k + 1)) {
      assert DNode(disk, lo, l[k], At(l, k + 1));
    }
  }

  lemma FileFrame(disk: seq<Sector>, disk': seq<Sector>, lo: int, xs: seq<int>, ds: seq<int>, head: int,
                  c: Lflcblk, cur: int, bs: seq<FBlk>)
    requires FileOk(disk, lo, head, c, cur, bs) && SameBut(disk, disk', lo, xs, ds)
    requires forall x :: x in Ids(bs) ==> x !in xs
    ensures FileOk(disk', lo, head, c, cur, bs)
  {
    hide IbAt, Data;
    forall k | 0 <= k < |bs| ensures BlockOk(disk', lo, DirtyAt(c, cur), bs, k) {
      assert BlockOk(disk, lo, DirtyAt(c, cur), bs, k);
      assert Ids(bs)[k] in Ids(bs);
    }
  }

  /** The two stores differ only at file f and at the free lists. */
  ghost predicate OnlyFile(s: Store, s': Store, f: nat) {
    && f < |s.fs.files| && |s.dir.lfd_files| == |s.cbs| == |s.cur| == |s.fs.files|
    && |s'.dir.lfd_files| == |s'.cbs| == |s'.cur| == |s'.fs.files| == |s.fs.files|
    && s'.dir.lfd_files == s.dir.lfd_files[f := s'.dir.lfd_files[f]] && s'.cbs == s.cbs[f := s'.cbs[f]]
    && s'.cur == s.cur[f := s'.cur[f]] && s'.fs.files == s.fs.files[f := s'.fs.files[f]]
  }

  lemma RepChanged(s: Store, s': Store, lo: int, f: nat, xs: seq<int>, ds: seq<int>)
    requires Rep(s, lo) && OnlyFile(s, s', f) && Partition(s'.fs)
    requires SameBut(s.disk, s'.disk, lo, xs, ds)
    requires forall x :: x in xs && x != LF_INULL ==> x in Ids(s.fs.files[f]) || x in s.fs.ifree
    requires FreeI(s'.disk, lo, s'.dir.lfd_ifree, s'.fs.ifree) && FreeD(s'.disk, lo, s'.dir.lfd_dfree, s'.fs.dfree)
    requires FileOk(s'.disk, lo, s'.dir.lfd_files[f].ld_ilist, s'.cbs[f], s'.cur[f], s'.fs.files[f])
    ensures Rep(s', lo)
  {
    hide FileOk, FreeI, FreeD, Partition;
    forall g | 0 <= g < |s'.fs.files|
      ensures FileOk(s'.disk, lo, s'.dir.lfd_files[g].ld_ilist, s'.cbs[g], s'.cur[g], s'.fs.files[g])
    {
      if g != f {
        assert s'.fs.files[g] == s.fs.files[g] && s'.cbs[g] == s.cbs[g] && s'.cur[g] == s.cur[g];
        assert s'.dir.lfd_files[g] == s.dir.lfd_files[g];
        OtherIds(s.fs, f, g, xs);
        FileFrame(s.disk, s'.disk, lo, xs, ds, s.dir.lfd_files[g].ld_ilist, s.cbs[g], s.cur[g], s.fs.files[g]);
      }
    }
  }

  lemma OtherIds(fs: Fs, f: nat, g: nat, xs: seq<int>)
    requires Partition(fs) && f < |fs.files| && g < |fs.files| && g != f
    requires forall x :: x in xs && x != LF_INULL ==> x in Ids(fs.files[f]) || x in fs.ifree
    ensures forall x :: x in Ids(fs.files[g]) ==> x !in xs
  {
    hide Ids, Data, Partition;
    forall x | x in Ids(fs.files[g])
      ensures x !in xs
    {
      FilesApart(fs, f, g, x);
      FreeApart(fs, g, x);
      NotNull(fs, g);
    }
  }

  lemma NotNull(fs: Fs, f: nat)
    requires Partition(fs) && f < |fs.files|
    ensures LF_INULL !in Ids(fs.files[f]) && LF_INULL !in fs.ifree
    ensures LF_DNULL !in Data(fs.files[f]) && LF_DNULL !in fs.dfree
  {
    FlatHas(fs.files, f, LF_INULL);
    hide Ids, Data, FlatIds, FlatData;
    assert multiset(AllI(fs))[LF_INULL] == multiset(fs.ifree)[LF_INULL] + multiset(FlatIds(fs.files))[LF_INULL];
    assert multiset(AllD(fs))[LF_DNULL] == multiset(fs.dfree)[LF_DNULL] + multiset(FlatData(fs.files))[LF_DNULL];
    assert multiset(AllI(fs))[LF_INULL] == 0 && multiset(AllD(fs))[LF_DNULL] == 0;
    Absent(Ids(fs.files[f]), LF_INULL);
    Absent(Data(fs.files[f]), LF_DNULL);
    Absent(fs.ifree, LF_INULL);
    Absent(fs.dfree, LF_DNULL);
  }

  lemma Absent(l: seq<int>, x: int)
    requires multiset(l)[x] == 0
    ensures x !in l
  {
    assert x in l <==> x in multiset(l);
  }

  lemma RepParts(s: Store, lo: int, f: nat)
    requires Rep(s, lo) && f < |s.fs.files|
    ensures |s.dir.lfd_files| == |s.cbs| == |s.cur| == |s.fs.files|
    ensures FileOk(s.disk, lo, s.dir.lfd_files[f].ld_ilist, s.cbs[f], s.cur[f], s.fs.files[f])
    ensures 0 <= lo <= |s.disk| && Partition(s.fs)
    ensures FreeI(s.disk, lo, s.dir.lfd_ifree, s.fs.ifree) && FreeD(s.disk, lo, s.dir.lfd_dfree, s.fs.dfree)
  {
    hide FileOk, Partition, FreeI, FreeD;
  }
}
