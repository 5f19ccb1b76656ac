/** Truncation on the represented store (Chapter19/lftruncate.c): the walk that frees every data block of a file and
    turns its chain, block by block, into the front of the list of free index blocks. */
module FsTrunc {
  import opened Types
  import opened Lists
  import opened FsDisk
  import opened FsState
  import opened FsRep
  import opened FsOps

  // Freeing data blocks

  lemma FreeDPush(disk: seq<Sector>, lo: int, head: int, l: seq<int>, d: int)
    requires FreeD(disk, lo, head, l) && 0 <= lo <= d < |disk| && d !in l
    ensures FreeD(WriteAt(disk, d, LinkSector(head)), lo, d, [d] + l)
  {
    var disk', m := WriteAt(disk, d, LinkSector(head)), [d] + l;
    forall k | 0 <= k < |m| ensures DNode(disk', lo, m[k], At(m, k + 1)) {
      if k > 0 { assert DNode(disk, lo, l[k - 1], At(l, k)); }
    }
  }

  lemma ReversedAppend(a: seq<int>, d: int)
    ensures Reversed(a + [d]) == [d] + Reversed(a)
  {
  }

  lemma ReversedConcat(a: seq<int>, b: seq<int>)
    ensures Reversed(a + b) == Reversed(b) + Reversed(a)
  {
  }

  lemma ReversedHas(l: seq<int>, x: int)
    ensures x in Reversed(l) <==> x in l
  {
    if x in l {
      var k :| 0 <= k < |l| && l[k] == x;
      assert Reversed(l)[|l| - 1 - k] == x;
    }
  }

  lemma UsedStep(dba: Dba, i: nat)
    requires i < LF_IBLEN
    ensures Used(dba[..i + 1]) == Used(dba[..i]) + if dba[i] == LF_DNULL then [] else [dba[i]]
  {
    assert dba[..i + 1][..i] == dba[..i];
  }

  lemma {:induction false} UsedPrefix(dba: seq<int>, i: nat)
    requires i <= |dba|
    ensures Used(dba[..i]) <= Used(dba)
    decreases |dba| - i
  {
    if i < |dba| {
      UsedPrefix(dba, i + 1);
      assert dba[..i + 1][..i] == dba[..i];
    } else {
      assert dba[..i] == dba;
    }
  }

  /** The next data block to be freed is not yet on the list. */
  lemma NextIsNew(dba: Dba, i: nat, l: seq<int>)
    requires i < LF_IBLEN && dba[i] != LF_DNULL && NoDup(Used(dba)) && forall d :: d in Used(dba) ==> d !in l
    ensures dba[i] in Used(dba) && dba[i] !in Reversed(Used(dba[..i])) + l
  {
    UsedHas(dba, i);
    UsedStep(dba, i);
    UsedPrefix(dba, i + 1);
    var u := Used(dba[..i]);
    assert Used(dba)[|u|] == dba[i];
    ReversedHas(u, dba[i]);
    forall k | 0 <= k < |u| ensures u[k] != dba[i] { assert Used(dba)[k] != Used(dba)[|u|]; }
  }

  // The walk

  /** The entry behind entry k, or `last` behind the last one. */
  function Behind(l: seq<int>, k: nat, last: int): int {
    if k + 1 < |l| then l[k + 1] else last
  }

  /** The link that truncation leaves in block j of the chain. */
  function NextOf(s: Store, f: nat, j: nat): int
    requires f < |s.fs.files|
  {
    Behind(Ids(s.fs.files[f]), j, At(s.fs.ifree, 0))
  }

  /** The first k blocks of the chain of f have been cleared and their data blocks freed. */
  ghost predicate Walked(s: Store, lo: int, f: nat, k: nat, disk: seq<Sector>, dfree: int)
    requires f < |s.fs.files| && k <= |s.fs.files[f]|
  {
    var bs := s.fs.files[f];
    && SameBut(s.disk, disk, lo, Ids(bs[..k]), Data(bs[..k]))
    && FreeD(disk, lo, dfree, Reversed(Data(bs[..k])) + s.fs.dfree)
    && forall j :: 0 <= j < k ==> INode(disk, lo, bs[j].id, NextOf(s, f, j))
  }

  lemma WalkStart(s: Store, lo: int, f: nat)
    requires Rep(s, lo) && f < |s.fs.files|
    ensures Walked(s, lo, f, 0, s.disk, s.dir.lfd_dfree)
  {
    hide Rep, SameBut, FreeI, FreeD, Partition, FileOk, NextOf;
    RepParts(s, lo, f);
    SameSelf(s.disk, lo, Ids(s.fs.files[f][..0]), Data(s.fs.files[f][..0]));
    assert Reversed(Data(s.fs.files[f][..0])) + s.fs.dfree == s.fs.dfree;
  }

  lemma IdNew(bs: seq<FBlk>, k: nat)
    requires k < |bs| && NoDup(Ids(bs))
    ensures bs[k].id !in Ids(bs[..k])
  {
    forall j | 0 <= j < k
      ensures Ids(bs[..k])[j] != bs[k].id
    {
      assert Ids(bs)[j] != Ids(bs)[k];
    }
  }

  /** The next block of the walk still has its contents. */
  lemma WalkBlock(s: Store, lo: int, f: nat, k: nat, disk: seq<Sector>, dfree: int)
    requires Rep(s, lo) && f < |s.fs.files| && !s.cbs[f].lfibdirty && k < |s.fs.files[f]|
    requires Walked(s, lo, f, k, disk, dfree)
    ensures var bs := s.fs.files[f];
            && InIndex(lo, bs[k].id) && OnDisk(disk, bs[k].id) && 0 <= lo <= |disk|
            && IbAt(disk, bs[k].id) == Content(bs, k)
            && bs[k].id != At(s.fs.ifree, 0)
  {
    hide Rep, FreeI, FreeD, Partition, IbAt, Content, Data, DataIn, MemoryOk;
    RepParts(s, lo, f);
    var bs := s.fs.files[f];
    assert BlockOk(s.disk, lo, -1, bs, k);
    AllNoDup(s.fs, f);
    IdNew(bs, k);
    assert Ids(bs)[k] in Ids(bs);
    FreeApart(s.fs, f, bs[k].id);
  }

  lemma {:induction false} DataPrefix(bs: seq<FBlk>, k: nat)
    requires k <= |bs|
    ensures Data(bs[..k]) <= Data(bs)
    decreases |bs| - k
  {
    if k < |bs| {
      DataPrefix(bs, k + 1);
      DataStep(bs, k);
    } else {
      assert bs[..k] == bs;
    }
  }

  lemma DataStep(bs: seq<FBlk>, k: nat)
    requires k < |bs|
    ensures Data(bs[..k + 1]) == Data(bs[..k]) + Used(bs[k].dba)
  {
    assert bs[..k + 1][..k] == bs[..k];
  }

  /** The data blocks of the next index block are distinct, and none of them is on the list yet. */
  lemma WalkData(s: Store, lo: int, f: nat, k: nat)
    requires Rep(s, lo) && f < |s.fs.files| && k < |s.fs.files[f]|
    ensures var bs := s.fs.files[f];
            var u := Used(bs[k].dba);
            && NoDup(u) && (forall d :: d in u ==> lo <= d < |s.disk|)
            && (forall d :: d in u ==> d !in Reversed(Data(bs[..k])) + s.fs.dfree)
  {
    hide Rep, FreeI, FreeD, Partition, ChainOk, MemoryOk, Used, Data, Reversed;
    RepParts(s, lo, f);
    var bs := s.fs.files[f];
    var a, u := Data(bs[..k]), Used(bs[k].dba);
    AllNoDup(s.fs, f);
    DataPrefix(bs, k + 1);
    DataStep(bs, k);
    Middle(Data(bs), a, u);
    forall d | d in u
      ensures lo <= d < |s.disk| && d !in Reversed(a) + s.fs.dfree
    {
      FreeApart(s.fs, f, d);
      ReversedHas(a, d);
    }
  }

  // A part of a sequence without duplicates, behind another part.
  lemma Middle(m: seq<int>, a: seq<int>, u: seq<int>)
    requires NoDup(m) && a + u <= m
    ensures NoDup(u) && forall d :: d in u ==> d in m && d !in a
  {
    forall i | 0 <= i < |u| ensures m[|a| + i] == u[i] {}
    forall i | 0 <= i < |a| ensures m[i] == a[i] {}
  }

  lemma SameButWiden(disk: seq<Sector>, disk': seq<Sector>, lo: int, xs: seq<int>, ds: seq<int>, xs': seq<int>,
                     ds': seq<int>)
    requires SameBut(disk, disk', lo, xs, ds)
    requires (forall x :: x in xs ==> x in xs') && (forall d :: d in ds ==> d in ds')
    ensures SameBut(disk, disk', lo, xs', ds')
  {
    hide IbAt;
  }

  lemma IdsStep(bs: seq<FBlk>, k: nat)
    requires k < |bs|
    ensures Ids(bs[..k + 1]) == Ids(bs[..k]) + [bs[k].id]
  {
  }

  /** One round of the walk: the data blocks of block k freed, and the block cleared and written back. */
  lemma WalkStep(s: Store, lo: int, f: nat, k: nat, disk: seq<Sector>, dfree: int, disk1: seq<Sector>, dfree1: int)
    requires Rep(s, lo) && f < |s.fs.files| && !s.cbs[f].lfibdirty && k < |s.fs.files[f]|
    requires Walked(s, lo, f, k, disk, dfree)
    requires var bs := s.fs.files[f];
             && SameBut(disk, disk1, lo, [], Used(bs[k].dba))
             && FreeD(disk1, lo, dfree1, Reversed(Used(bs[k].dba)) + (Reversed(Data(bs[..k])) + s.fs.dfree))
    ensures InIndex(lo, s.fs.files[f][k].id) && OnDisk(disk1, s.fs.files[f][k].id)
    ensures Walked(s, lo, f, k + 1, PutIb(disk1, s.fs.files[f][k].id, Iblk(NextOf(s, f, k), 0, NoData())), dfree1)
  {
    hide Rep, FreeI, FreeD, Partition, IbAt, Content, Data, Used, FileOk, NoData, PutIb, NextOf;
    RepParts(s, lo, f);
    WalkBlock(s, lo, f, k, disk, dfree);
    var bs, b := s.fs.files[f], Iblk(NextOf(s, f, k), 0, NoData());
    var x, disk2 := bs[k].id, PutIb(disk1, bs[k].id, b);
    DataStep(bs, k);
    IdsStep(bs, k);
    var xs, ds := Ids(bs[..k + 1]), Data(bs[..k + 1]);
    PutSame(disk1, lo, x, b, [x], []);
    SameButWiden(s.disk, disk, lo, Ids(bs[..k]), Data(bs[..k]), xs, ds);
    SameButWiden(disk, disk1, lo, [], Used(bs[k].dba), xs, ds);
    SameButWiden(disk1, disk2, lo, [x], [], xs, ds);
    SameButTrans(s.disk, disk, disk1, lo, xs, ds);
    SameButTrans(s.disk, disk1, disk2, lo, xs, ds);
    ReversedConcat(Data(bs[..k]), Used(bs[k].dba));
    assert Reversed(ds) + s.fs.dfree == Reversed(Used(bs[k].dba)) + (Reversed(Data(bs[..k])) + s.fs.dfree);
    FreeDFrame(disk1, disk2, lo, [x], [], dfree1, Reversed(ds) + s.fs.dfree);
    WalkLinks(s, lo, f, k, disk, dfree, disk1, disk2);
  }

  lemma WalkLinks(s: Store, lo: int, f: nat, k: nat, disk: seq<Sector>, dfree: int, disk1: seq<Sector>,
                  disk2: seq<Sector>)
    requires Rep(s, lo) && f < |s.fs.files| && k < |s.fs.files[f]| && Walked(s, lo, f, k, disk, dfree)
    requires SameBut(disk, disk1, lo, [], Used(s.fs.files[f][k].dba))
    requires SameBut(disk1, disk2, lo, [s.fs.files[f][k].id], [])
    requires INode(disk2, lo, s.fs.files[f][k].id, NextOf(s, f, k))
    ensures forall j :: 0 <= j <= k ==> INode(disk2, lo, s.fs.files[f][j].id, NextOf(s, f, j))
  {
    hide Rep, FreeI, FreeD, Partition, IbAt, Data, Used, FileOk, NextOf;
    RepParts(s, lo, f);
    AllNoDup(s.fs, f);
    var bs := s.fs.files[f];
    forall j | 0 <= j <= k
      ensures INode(disk2, lo, bs[j].id, NextOf(s, f, j))
    {
      if j < k {
        assert INode(disk, lo, bs[j].id, NextOf(s, f, j));
        assert Ids(bs)[j] != Ids(bs)[k];
      }
    }
  }

  /** The store after truncation. */
  function Emptied(s: Store, f: nat, disk: seq<Sector>, dfree: int): Store
    requires f < |s.fs.files| && |s.dir.lfd_files| == |s.cbs| == |s.cur| == |s.fs.files|
  {
    Store(disk,
          Lfdir(dfree, s.dir.lfd_files[f].ld_ilist, s.dir.lfd_files[f := Ldentry(0, LF_INULL)]),
          s.cbs[f := s.cbs[f].(lfpos := 0, lfinum := LF_INULL, lfdnum := LF_DNULL)],
          s.cur[f := -1],
          Truncated(s.fs, f))
  }

  lemma WalkEnd(s: Store, lo: int, f: nat, disk: seq<Sector>, dfree: int)
    requires Rep(s, lo) && f < |s.fs.files| && !s.cbs[f].lfibdirty && s.fs.files[f] != []
    requires Walked(s, lo, f, |s.fs.files[f]|, disk, dfree)
    ensures Rep(Emptied(s, f, disk, dfree), lo)
    ensures SameBut(s.disk, disk, lo, Ids(s.fs.files[f]), Data(s.fs.files[f]))
  {
    hide Rep, Partition, IbAt, Data, ChainOk, Used, SameBut, FreeI, FreeD;
    RepParts(s, lo, f);
    var bs, s' := s.fs.files[f], Emptied(s, f, disk, dfree);
    assert bs[..|bs|] == bs;
    TruncatedKeeps(s.fs, f);
    SamePartition(s.fs, s'.fs);
    WalkFreeI(s, lo, f, disk, dfree);
    EmptyFile(disk, lo, s'.cbs[f]);
    hide FileOk;
    RepChanged(s, s', lo, f, Ids(bs), Data(bs));
  }

  lemma EmptyFile(disk: seq<Sector>, lo: nat, c: Lflcblk)
    requires c.lfinum == LF_INULL && c.lfdnum == LF_DNULL && !c.lfibdirty
    ensures FileOk(disk, lo, LF_INULL, c, -1, [])
  {
  }

  lemma WalkFreeI(s: Store, lo: int, f: nat, disk: seq<Sector>, dfree: int)
    requires Rep(s, lo) && f < |s.fs.files| && s.fs.files[f] != []
    requires Walked(s, lo, f, |s.fs.files[f]|, disk, dfree)
    ensures FreeI(disk, lo, s.dir.lfd_files[f].ld_ilist, Ids(s.fs.files[f]) + s.fs.ifree)
  {
    hide Rep, Partition, IbAt, Data, ChainOk, MemoryOk, DataIn, FreeD;
    RepParts(s, lo, f);
    var bs := s.fs.files[f];
    assert bs[..|bs|] == bs;
    forall x | x in s.fs.ifree ensures x !in Ids(bs) { FreeApart(s.fs, f, x); }
    FreeIFrame(s.disk, disk, lo, Ids(bs), Data(bs), s.dir.lfd_ifree, s.fs.ifree);
    hide FreeI, INode, SameBut, Behind;
    forall k | 0 <= k < |bs|
      ensures INode(disk, lo, Ids(bs)[k], Behind(Ids(bs), k, At(s.fs.ifree, 0)))
    {
      assert INode(disk, lo, bs[k].id, NextOf(s, f, k));
    }
    ChainJoin(disk, lo, Ids(bs), s.fs.ifree);
  }

  lemma ChainJoin(disk: seq<Sector>, lo: int, l: seq<int>, m: seq<int>)
    requires forall k :: 0 <= k < |l| ==> INode(disk, lo, l[k], Behind(l, k, At(m, 0)))
    requires FreeI(disk, lo, At(m, 0), m)
    ensures FreeI(disk, lo, At(l + m, 0), l + m)
  {
    hide INode;
    forall k | 0 <= k < |l + m|
      ensures INode(disk, lo, (l + m)[k], At(l + m, k + 1))
    {
      if k >= |l| {
        assert INode(disk, lo, m[k - |l|], At(m, k - |l| + 1));
        assert At(l + m, k + 1) == At(m, k - |l| + 1);
      } else {
        assert INode(disk, lo, l[k], Behind(l, k, At(m, 0)));
        assert At(l + m, k + 1) == Behind(l, k, At(m, 0));
      }
    }
  }

  // The file system that `lfscreate` leaves behind

  function UpFrom(a: int, n: nat): (r: seq<int>)
    ensures |r| == n && forall k :: 0 <= k < n ==> r[k] == a + k
  {
    seq(n, k requires 0 <= k < n => a + k)
  }

  lemma {:induction false} UpFromOnce(a: int, n: nat, x: int)
    ensures multiset(UpFrom(a, n))[x] <= if a <= x < a + n then 1 else 0
  {
    if n > 0 {
      UpFromOnce(a, n - 1, x);
      assert UpFrom(a, n) == UpFrom(a, n - 1) + [a + n - 1];
    }
  }

  lemma NoFiles(s: Store, lo: int, n: nat, m: nat)
    requires 0 < lo <= |s.disk| && s.dir == Lfdir(lo, 0, []) && s.cbs == [] && s.cur == [] && n > 0 && m > 0
    requires s.fs == Fs([], UpFrom(0, n), UpFrom(lo, m))
    requires forall i :: 0 <= i < n ==> INode(s.disk, lo, i, Up(i, n))
    requires forall i :: 0 <= i < m ==> DNode(s.disk, lo, lo + i, UpData(lo, i, m))
    ensures Rep(s, lo)
  {
    hide INode, DNode, Partition;
    var fs := s.fs;
    StartPartition(fs, lo, n, m);
    forall k | 0 <= k < n ensures INode(s.disk, lo, fs.ifree[k], At(fs.ifree, k + 1)) {
      assert INode(s.disk, lo, k, Up(k, n));
    }
    forall k | 0 <= k < m ensures DNode(s.disk, lo, fs.dfree[k], At(fs.dfree, k + 1)) {
      assert DNode(s.disk, lo, lo + k, UpData(lo, k, m));
    }
  }

  lemma StartPartition(fs: Fs, lo: nat, n: nat, m: nat)
    requires fs == Fs([], UpFrom(0, n), UpFrom(lo, m))
    ensures Partition(fs)
  {
    assert AllI(fs) == fs.ifree && AllD(fs) == fs.dfree;
    hide UpFrom;
    forall x ensures multiset(AllI(fs))[x] <= 1 && multiset(AllD(fs))[x] <= 1 {
      UpFromOnce(0, n, x);
      UpFromOnce(lo, m, x);
    }
  }

  // The links of the initial free lists.

  function Up(i: int, n: int): int {
    if i + 1 < n then i + 1 else LF_INULL
  }

  function UpData(lo: int, i: int, m: int): int {
    if i + 1 < m then lo + i + 1 else LF_DNULL
  }

  // A new file

  function WithNewFile(s: Store, c: Lflcblk): Store {
    Store(s.disk, s.dir.(lfd_files := s.dir.lfd_files + [Ldentry(0, LF_INULL)]), s.cbs + [c], s.cur + [-1], NewFile(s.fs))
  }

  lemma NewFileOk(s: Store, lo: int, c: Lflcblk)
    requires Rep(s, lo) && c.lfinum == LF_INULL && c.lfdnum == LF_DNULL && !c.lfibdirty
    ensures Rep(WithNewFile(s, c), lo)
  {
    hide FileOk, FreeI, FreeD, Partition;
    NewFileKeeps(s.fs);
    SamePartition(s.fs, NewFile(s.fs));
    EmptyFile(s.disk, lo, c);
  }
}
