/** The procedures of the local file system's block layer (Chapter 19) on the disk, the directory and the control
    blocks. */
module FileSys {
  import opened Types
  import opened Lists
  import opened FsDisk
  import opened FsState
  import opened FsRep
  import opened FsOps
  import opened FsTrunc
  import opened FsContents
  import opened FsFiles

  class LocalFs {
    const disk: array<Sector>

    // The first data sector.
    ghost var lo: nat

    // The directory in memory, and the control block of each of its files.
    var dir: Lfdir
    var lfltab: seq<Lflcblk>

    // Abstraction: where the index block in memory stands in its chain, and the files.
    ghost var cur: seq<int>
    ghost var fs: Fs

    ghost function View(): Store
      reads this, disk
    {
      Store(disk[..], dir, lfltab, cur, fs)
    }

    ghost predicate Valid()
      reads this, disk
    {
      Rep(View(), lo)
    }

    // One index block

    /** Copies index block inum out of its sector. */
    method LfIbGet(inum: int) returns (ibuff: Iblk)
      requires OnDisk(disk[..], inum)
      ensures ibuff == IbAt(disk[..], inum)
    {
      var dbuff: Sector := disk[Ib2Sect(inum)];
      var from := Ib2Disp(inum);
      var to := new int[IB_WORDS];
      var i := 0;
      while i < IB_WORDS
        invariant 0 <= i <= IB_WORDS
        invariant forall j :: 0 <= j < i ==> to[j] == dbuff[from + j]
      {
        to[i] := dbuff[from + i];
        i := i + 1;
      }
      assert to[..] == dbuff[from..from + IB_WORDS];
      return FromWords(to[..]);
    }

    /** Replaces index block inum in its sector. */
    method LfIbPut(inum: int, ibuff: Iblk)
      modifies disk
      ensures disk[..] == StoreIb(old(disk[..]), inum, ibuff)
    {
      if inum < 0 || Ib2Sect(inum) >= disk.Length {
        return;
      }
      ghost var was := disk[..];
      var s: Sector, to, from := disk[Ib2Sect(inum)], Ib2Disp(inum), Words(ibuff);
      var dbuff := new int[SECTOR_WORDS](j requires 0 <= j < SECTOR_WORDS => s[j]);
      var i := 0;
      while i < IB_WORDS
        invariant 0 <= i <= IB_WORDS && disk[..] == was
        invariant forall j :: 0 <= j < SECTOR_WORDS ==> dbuff[j] == if to <= j < to + i then from[j - to] else s[j]
      {
        dbuff[to + i] := from[i];
        i := i + 1;
      }
      assert dbuff[..] == Spliced(s, to, from);
      disk[Ib2Sect(inum)] := dbuff[..];
      assert disk[..] == PutIb(was, inum, ibuff);
    }

    method LfIbClear(offset: int) returns (ibptr: Iblk)
      ensures ibptr == Cleared(offset)
    {
      var dba := new int[LF_IBLEN];
      var i := 0;
      while i < LF_IBLEN
        invariant 0 <= i <= LF_IBLEN && forall j :: 0 <= j < i ==> dba[j] == LF_DNULL
      {
        dba[i] := LF_DNULL;
        i := i + 1;
      }
      assert dba[..] == NoData();
      return Iblk(LF_INULL, offset, dba[..]);
    }

    // Free lists

    /** Takes the first block off the list of free index blocks; a null result stands for the panic. */
    method LfIbAlloc() returns (ibnum: int)
      requires dir.lfd_ifree != LF_INULL ==> OnDisk(disk[..], dir.lfd_ifree)
      modifies this`dir
      ensures ibnum == old(dir).lfd_ifree
      ensures dir == if ibnum == LF_INULL then old(dir) else old(dir).(lfd_ifree := IbAt(disk[..], ibnum).next)
    {
      ibnum := dir.lfd_ifree;
      if ibnum == LF_INULL {
        return;
      }
      var iblock := LfIbGet(ibnum);
      dir := dir.(lfd_ifree := iblock.next);
    }

    method LfDbAlloc() returns (dnum: int, dbuff: Sector)
      requires dir.lfd_dfree != LF_DNULL ==> 0 <= dir.lfd_dfree < disk.Length
      modifies this`dir
      ensures dnum == old(dir).lfd_dfree
      ensures dir == if dnum == LF_DNULL then old(dir) else old(dir).(lfd_dfree := NextDb(disk[..], dnum))
      ensures dnum != LF_DNULL ==> dbuff == seq(SECTOR_WORDS, _ => 0)
    {
      dbuff := seq(SECTOR_WORDS, _ => 0);
      dnum := dir.lfd_dfree;
      if dnum == LF_DNULL {
        return;
      }
      dbuff := disk[dnum];
      dir := dir.(lfd_dfree := dbuff[0]);
      dbuff := seq(SECTOR_WORDS, _ => 0);
    }

    method LfDbFree(dnum: int)
      modifies this`dir, disk
      ensures disk[..] == WriteAt(old(disk[..]), dnum, LinkSector(old(dir).lfd_dfree))
      ensures dir == old(dir).(lfd_dfree := dnum)
    {
      ghost var was := disk[..];
      var buf := LinkSector(dir.lfd_dfree);
      dir := dir.(lfd_dfree := dnum);
      if 0 <= dnum < disk.Length {
        disk[dnum] := buf;
        assert disk[..] == was[dnum := buf];
      }
    }

    // Setup

    method LfFlush(f: nat)
      requires Valid() && f < |fs.files|
      modifies this`lfltab, disk
      ensures Valid() && View() == Flushed(old(View()), f)
      ensures f < |old(lfltab)| && DataFlushed(old(disk[..]), disk[..], lo, old(lfltab)[f])
    {
      hide Rep, StoreIb, SameBut, DataFlushed;
      ghost var s := View();
      RepSizes(f);
      FlushOk(s, lo, f);
      FlushedSectors(s, lo, f);
      if lfltab[f].lfdbdirty {
        if 0 <= lfltab[f].lfdnum < disk.Length {
          disk[lfltab[f].lfdnum] := lfltab[f].lfdblock;
        }
        assert disk[..] == WriteAt(s.disk, lfltab[f].lfdnum, lfltab[f].lfdblock);
      }
      if lfltab[f].lfibdirty {
        LfIbPut(lfltab[f].lfinum, lfltab[f].lfiblock);
      }
      lfltab := lfltab[f := lfltab[f].(lfibdirty := false)];
    }

    lemma RepSizes(f: nat)
      requires Valid() && f < |fs.files|
      ensures |dir.lfd_files| == |lfltab| == |cur| == |fs.files|
      ensures lo <= disk.Length
      ensures var c, bs := lfltab[f], fs.files[f];
              && -1 <= cur[f] < |bs| && (cur[f] == -1 <==> c.lfinum == LF_INULL)
              && (cur[f] >= 0 ==> c.lfinum == bs[cur[f]].id && c.lfiblock == Content(bs, cur[f]))
              && (cur[f] >= 0 ==> (c.lfiblock.next == LF_INULL <==> cur[f] == |bs| - 1))
      ensures dir.lfd_files[f].ld_ilist == LF_INULL <==> fs.files[f] == []
      ensures fs.files[f] != [] ==> dir.lfd_files[f].ld_ilist == fs.files[f][0].id
      ensures cur[f] == -1 ==> !lfltab[f].lfibdirty
      ensures dir.lfd_ifree == LF_INULL <==> fs.ifree == []
      ensures dir.lfd_dfree == LF_DNULL <==> fs.dfree == []
      ensures fs.ifree != [] ==> dir.lfd_ifree == fs.ifree[0]
      ensures fs.dfree != [] ==> dir.lfd_dfree == fs.dfree[0]
    {
      hide Partition, IbAt;
      RepParts(View(), lo, f);
      NotNull(fs, f);
      var bs := fs.files[f];
      assert forall k :: 0 <= k < |bs| ==> Ids(bs)[k] in Ids(bs);
    }

    // What changes when a step works on file f only.
    twostate predicate OthersSame(f: nat)
      reads this
    {
      && f < |old(lfltab)| == |lfltab| && lfltab == old(lfltab)[f := lfltab[f]] && lfltab[f].lfpos == old(lfltab)[f].lfpos
      && f < |old(cur)| == |cur| && cur == old(cur)[f := cur[f]]
      && |dir.lfd_files| == |old(dir).lfd_files|
      && forall g :: 0 <= g < |dir.lfd_files| ==> dir.lfd_files[g].ld_size == old(dir).lfd_files[g].ld_size
    }

    twostate predicate BufferSame(f: nat)
      requires f < |old(lfltab)| && f < |lfltab|
      reads this
    {
      lfltab[f].lfdblock == old(lfltab)[f].lfdblock && lfltab[f].lfdbdirty == old(lfltab)[f].lfdbdirty
    }

    /** Brings an index block into memory that is not behind the position: the first one, a new first one, or the one
        that is there. */
    method FindBlock(f: nat) returns (ok: bool)
      requires Valid() && f < |fs.files| && !lfltab[f].lfibdirty
      modifies this`dir, this`lfltab, this`cur, this`fs
      ensures !ok <==> old(fs).files[f] == [] && old(fs).ifree == []
      ensures ok ==> Valid() && |fs.files| == |old(fs).files|
      ensures ok ==> forall n :: n > 0 ==> Grown(fs, f, n) == Grown(old(fs), f, n)
      ensures ok ==> OthersSame(f) && 0 <= cur[f] < |fs.files[f]| && cur[f] * LF_IDATA <= lfltab[f].lfpos
      ensures ok ==> BufferSame(f) && lfltab[f].lfdnum == old(lfltab)[f].lfdnum && cur[f] == StartAt(old(View()), f)
      ensures ok && lfltab[f].lfibdirty ==> cur[f] == |fs.files[f]| - 1
    {
      hide Rep, IbAt, Grown;
      RepSizes(f);
      ghost var s, bs := View(), fs.files[f];
      var ibnum := lfltab[f].lfinum;
      if ibnum == LF_INULL {
        ibnum := dir.lfd_files[f].ld_ilist;
        if ibnum == LF_INULL {
          if fs.ifree != [] { NewBlockOk(s, lo, f, lfltab[f].lfdnum); }
          ibnum := LfIbAlloc();
          if ibnum == LF_INULL {
            return false;
          }
          var iblock := LfIbClear(0);
          dir := dir.(lfd_files := dir.lfd_files[f := dir.lfd_files[f].(ld_ilist := ibnum)]);
          lfltab := lfltab[f := lfltab[f].(lfiblock := iblock, lfibdirty := true, lfinum := ibnum)];
          cur, fs := cur[f := 0], AddBlock(fs, f);
          forall n | n > 0 ensures Grown(fs, f, n) == Grown(s.fs, f, n) { GrownStep(s.fs, f, n); }
          assert View() == NewBlock(s, f, s.cbs[f].lfdnum);
        } else {
          LoadOk(s, lo, f, 0, lfltab[f].lfdnum);
          var iblock := LfIbGet(ibnum);
          lfltab := lfltab[f := lfltab[f].(lfiblock := iblock, lfinum := ibnum)];
          cur := cur[f := 0];
          assert View() == Loaded(s, f, 0, s.cbs[f].lfdnum);
        }
      } else if lfltab[f].lfpos < lfltab[f].lfiblock.offset {
        ibnum := dir.lfd_files[f].ld_ilist;
        LoadOk(s, lo, f, 0, lfltab[f].lfdnum);
        var iblock := LfIbGet(ibnum);
        lfltab := lfltab[f := lfltab[f].(lfiblock := iblock, lfinum := ibnum)];
        cur := cur[f := 0];
        assert View() == Loaded(s, f, 0, s.cbs[f].lfdnum);
      }
      return true;
    }

    /** One round of the loop of `lfsetup`: the next block of the chain, or a new one at its end. */
    method NextBlock(f: nat, ghost n: nat) returns (ok: bool)
      requires Valid() && f < |fs.files| && 0 <= cur[f] < |fs.files[f]| && cur[f] + 1 < n
      requires lfltab[f].lfibdirty ==> cur[f] == |fs.files[f]| - 1
      modifies this`dir, this`lfltab, this`cur, this`fs, disk
      ensures !ok ==> |Grown(old(fs), f, n).files[f]| < n
      ensures ok ==> Valid() && |fs.files| == |old(fs).files| && Grown(fs, f, n) == Grown(old(fs), f, n)
      ensures ok ==> OthersSame(f) && cur[f] == old(cur)[f] + 1 < |fs.files[f]|
      ensures ok ==> BufferSame(f) && lfltab[f].lfdnum == LF_DNULL
      ensures ok && lfltab[f].lfibdirty ==> cur[f] == |fs.files[f]| - 1
      ensures DataSame(old(disk[..]), disk[..], lo, [])
    {
      hide Rep, IbAt, StoreIb, SameBut, Grown;
      RepSizes(f);
      GrownStep(fs, f, n);
      ghost var s, bs := View(), fs.files[f];
      var ibnum := lfltab[f].lfiblock.next;
      if ibnum == LF_INULL {
        if fs.ifree != [] {
          NewBlockOk(s, lo, f, LF_DNULL);
          NewBlockData(s, lo, f);
        }
        ibnum := LfIbAlloc();
        if ibnum == LF_INULL {
          return false;
        }
        lfltab := lfltab[f := lfltab[f].(lfiblock := lfltab[f].lfiblock.(next := ibnum))];
        LfIbPut(lfltab[f].lfinum, lfltab[f].lfiblock);
        var newoffset := lfltab[f].lfiblock.offset + LF_IDATA;
        var iblock := LfIbClear(newoffset);
        lfltab := lfltab[f := lfltab[f].(lfinum := ibnum, lfiblock := iblock, lfibdirty := true)];
        lfltab := lfltab[f := lfltab[f].(lfdnum := LF_DNULL)];
        cur, fs := cur[f := |bs|], AddBlock(fs, f);
        assert View() == NewBlock(s, f, LF_DNULL);
      } else {
        LoadOk(s, lo, f, cur[f] + 1, LF_DNULL);
        var iblock := LfIbGet(ibnum);
        lfltab := lfltab[f := lfltab[f].(lfiblock := iblock, lfinum := ibnum, lfdnum := LF_DNULL)];
        cur := cur[f := cur[f] + 1];
        assert View() == Loaded(s, f, s.cur[f] + 1, LF_DNULL);
      }
      return true;
    }

    static lemma NewBlockData(s: Store, lo: int, f: nat)
      requires f < |s.fs.files| && |s.dir.lfd_files| == |s.cbs| == |s.cur| == |s.fs.files| && s.fs.ifree != []
      requires OnDisk(s.disk, s.fs.ifree[0])
      requires SameBut(s.disk, NewBlock(s, f, LF_DNULL).disk, lo, [s.cbs[f].lfinum], [])
      ensures DataSame(s.disk, NewBlock(s, f, LF_DNULL).disk, lo, [])
    {
      hide IbAt, NewBlock;
    }

    /** The loop of `lfsetup`: forward to the index block that covers the position. */
    method Walk(f: nat) returns (ok: bool)
      requires Valid() && f < |fs.files| && 0 <= cur[f] < |fs.files[f]| && cur[f] * LF_IDATA <= lfltab[f].lfpos
      requires lfltab[f].lfibdirty ==> cur[f] == |fs.files[f]| - 1
      modifies this`dir, this`lfltab, this`cur, this`fs, disk
      ensures var g := Grown(old(fs), f, BlockOf(old(lfltab)[f].lfpos) + 1);
              && (!ok <==> |g.files[f]| <= BlockOf(old(lfltab)[f].lfpos))
              && (ok ==> Valid() && OthersSame(f) && fs == g && |fs.files| == |old(fs).files|)
              && (ok ==> cur[f] == BlockOf(lfltab[f].lfpos))
      ensures ok ==>
        BufferSame(f) && lfltab[f].lfdnum == if cur[f] == old(cur)[f] then old(lfltab)[f].lfdnum else LF_DNULL
      ensures DataSame(old(disk[..]), disk[..], lo, [])
    {
      hide Rep, StoreIb, Grown, Content, BlockOf;
      RepSizes(f);
      ghost var k, s, was := BlockOf(lfltab[f].lfpos), View(), disk[..];
      Rounded(lfltab[f].lfpos, cur[f]);
      OffsetOf(fs.files[f], cur[f]);
      while lfltab[f].lfpos / LF_IDATA * LF_IDATA > lfltab[f].lfiblock.offset
        invariant Valid() && f < |fs.files| && OthersSame(f)
        invariant 0 <= cur[f] < |fs.files[f]| && cur[f] <= k
        invariant lfltab[f].lfpos / LF_IDATA * LF_IDATA > lfltab[f].lfiblock.offset <==> cur[f] < k
        invariant lfltab[f].lfibdirty ==> cur[f] == |fs.files[f]| - 1
        invariant Grown(fs, f, k + 1) == Grown(s.fs, f, k + 1)
        invariant BufferSame(f) && s.cur[f] <= cur[f]
        invariant lfltab[f].lfdnum == if cur[f] == s.cur[f] then s.cbs[f].lfdnum else LF_DNULL
        invariant DataSame(was, disk[..], lo, [])
        decreases k - cur[f]
      {
        ok := NextBlock(f, k + 1);
        if !ok {
          return false;
        }
        RepSizes(f);
        Rounded(lfltab[f].lfpos, cur[f]);
        OffsetOf(fs.files[f], cur[f]);
      }
      GrownStep(fs, f, k + 1);
      return true;
    }

    static lemma Rounded(pos: nat, j: nat)
      ensures pos / LF_IDATA * LF_IDATA > j * LF_IDATA <==> j < BlockOf(pos)
      ensures j * LF_IDATA <= pos ==> j <= BlockOf(pos)
    {
    }

    static lemma OffsetOf(bs: seq<FBlk>, k: nat)
      requires k < |bs|
      ensures Content(bs, k).offset == k * LF_IDATA
    {
    }

    // One step of growth.
    static lemma GrownStep(fs: Fs, f: nat, n: nat)
      requires f < |fs.files|
      ensures fs.ifree == [] ==> Grown(fs, f, n) == fs
      ensures fs.ifree != [] ==> AddBlock(fs, f).files[f] == fs.files[f] + [FBlk(fs.ifree[0], NoData())]
      ensures fs.ifree != [] && |fs.files[f]| < n ==> Grown(AddBlock(fs, f), f, n) == Grown(fs, f, n)
      ensures |fs.files[f]| >= n ==> Grown(fs, f, n) == fs
    {
    }

    /** The end of `lfsetup`: the data block for the position, allocated if the entry is null. */
    method SelectData(f: nat) returns (ok: bool)
      requires Valid() && f < |fs.files| && 0 <= cur[f] < |fs.files[f]| && cur[f] == BlockOf(lfltab[f].lfpos)
      modifies this`dir, this`lfltab, this`fs
      ensures var k, e := old(cur)[f], EntryOf(old(lfltab)[f].lfpos);
              && (!ok <==> old(fs).files[f][k].dba[e] == LF_DNULL && old(fs).dfree == [])
              && (ok ==> Valid() && OthersSame(f) && cur == old(cur) && |fs.files| == |old(fs).files|)
              && (ok ==> fs == if old(fs).files[f][k].dba[e] == LF_DNULL then AddData(old(fs), f, k, e) else old(fs))
              && (ok ==> lfltab[f].lfdnum == fs.files[f][k].dba[e] != LF_DNULL)
      ensures ok ==> BufferLoaded(old(lfltab)[f], lfltab[f], disk[..], old(lfltab)[f].lfdnum,
                                  old(fs).files[f][old(cur)[f]].dba[EntryOf(old(lfltab)[f].lfpos)])
    {
      hide Rep;
      RepSizes(f);
      ghost var s, k, e := View(), cur[f], EntryOf(lfltab[f].lfpos);
      var dindex := lfltab[f].lfpos % LF_IDATA / 512;
      var dnum := lfltab[f].lfiblock.dba[dindex];
      if dnum == LF_DNULL {
        ghost var zero: Sector := seq(SECTOR_WORDS, _ => 0);
        if fs.dfree != [] {
          NewDataOk(s, lo, f, e, zero);
          FreeNotNull(fs) by { RepParts(s, lo, f); }
        }
        var dbuff;
        dnum, dbuff := LfDbAlloc();
        if dnum == LF_DNULL {
          return false;
        }
        var b := lfltab[f].lfiblock;
        b := b.(dba := b.dba[dindex := dnum]);
        lfltab := lfltab[f := lfltab[f].(lfdblock := dbuff, lfiblock := b, lfibdirty := true)];
        fs := AddData(fs, f, k, e);
        lfltab := lfltab[f := lfltab[f].(lfdnum := dnum)];
        assert View() == NewData(s, f, e, zero);
      } else {
        ReadOk(s, lo, f, e, lfltab[f].(lfdnum := dnum));
        if dnum != lfltab[f].lfdnum {
          lfltab := lfltab[f := lfltab[f].(lfdblock := disk[dnum], lfdbdirty := false)];
        }
        lfltab := lfltab[f := lfltab[f].(lfdnum := dnum)];
        ReadOk(s, lo, f, e, lfltab[f]);
        assert View() == s.(cbs := s.cbs[f := lfltab[f]]);
      }
      return true;
    }

    // The part of `lfsetup` that brings the index block for the position into memory.
    method Locate(f: nat) returns (ok: bool)
      requires Valid() && f < |fs.files| && !lfltab[f].lfibdirty
      modifies this`dir, this`lfltab, this`cur, this`fs, disk
      ensures f < |old(lfltab)| == |old(cur)|
      ensures var k := BlockOf(old(lfltab)[f].lfpos);
              && (!ok <==> |Grown(old(fs), f, k + 1).files[f]| <= k)
              && (ok ==> Valid() && OthersSame(f) && BufferSame(f) && fs == Grown(old(fs), f, k + 1) && cur[f] == k)
              && (ok ==> lfltab[f].lfdnum == StillCurrent(old(View()), f))
      ensures DataSame(old(disk[..]), disk[..], lo, [])
    {
      hide Rep, Grown, AddBlock, Content, BlockOf, StartAt;
      RepSizes(f);
      GrownStep(fs, f, BlockOf(lfltab[f].lfpos) + 1);
      ok := FindBlock(f);
      if ok {
        ok := Walk(f);
      }
    }

    /** `lfsetup` for the position of file f: it fails only for want of a block. Otherwise the data block in memory has
        been written back; the index block in memory is number lfpos / 8192 of the chain and the data block is the entry
        (lfpos mod 8192) / 512 of it, the chain and the entry having been extended from the free lists where they were
        missing; and the buffer holds zeros if the entry was null, what it held if the data block was there, and what
        the disk holds otherwise. */
    method LfSetup(f: nat) returns (ok: bool)
      requires Valid() && f < |fs.files|
      modifies this`dir, this`lfltab, this`cur, this`fs, disk
      ensures f < |old(lfltab)| && (!ok <==> Setup(old(fs), f, old(lfltab)[f].lfpos) == None)
      ensures ok ==> Valid() && SetupStep(old(View()), View(), lo, f)
      ensures ok ==> lfltab[f].lfinum == fs.files[f][cur[f]].id && lfltab[f].lfiblock == Content(fs.files[f], cur[f])
      ensures DataFlushed(old(disk[..]), disk[..], lo, old(lfltab)[f])
    {
      hide Rep, Flushed, Grown, AddBlock, AddData, IbAt, Content, BlockOf, EntryOf, OnDisk, NoData, SetupStep,
        DataFlushed, DataSame, StillCurrent;
      RepSizes(f);
      ghost var s, pos := View(), lfltab[f].lfpos;
      NotFlushed(s.disk, lo, s.cbs[f]);
      if lfltab[f].lfibdirty || lfltab[f].lfdbdirty {
        LfFlush(f);
        FlushedKeeps(s, f);
      }
      ghost var s1 := View();
      StartSame(s, s1, f);
      ok := Locate(f);
      FlushedThen(s.disk, s1.disk, disk[..], lo, s.cbs[f]);
      if !ok {
        return;
      }
      ok := SelectData(f);
      if ok {
        RepSizes(f);
        BlockNoParts(pos);
        SetupDone(s, View(), lo, f);
      }
    }

    static lemma NotFlushed(disk: seq<Sector>, lo: int, c: Lflcblk)
      requires 0 <= lo <= |disk|
      ensures !c.lfdbdirty ==> DataFlushed(disk, disk, lo, c)
    {
    }

    static lemma StartSame(s: Store, s': Store, f: nat)
      requires f < |s.cbs| == |s.cur| && |s'.cbs| == |s.cbs| && s'.cur == s.cur && s'.cbs[f].lfpos == s.cbs[f].lfpos
      ensures s'.cbs[f].lfdnum == s.cbs[f].lfdnum ==> StillCurrent(s', f) == StillCurrent(s, f)
    {
    }

    static lemma FlushedThen(a: seq<Sector>, b: seq<Sector>, c: seq<Sector>, lo: int, cb: Lflcblk)
      requires DataFlushed(a, b, lo, cb) && DataSame(b, c, lo, [])
      ensures DataFlushed(a, c, lo, cb)
    {
    }

    static lemma SetupDone(s: Store, s': Store, lo: int, f: nat)
      requires Rep(s, lo) && Rep(s', lo) && OthersAs(s, s', f) && DataFlushed(s.disk, s'.disk, lo, s.cbs[f])
      requires s'.cbs[f].lfpos == s.cbs[f].lfpos && Some(s'.fs) == Setup(s.fs, f, s.cbs[f].lfpos)
      requires s'.cur[f] == BlockOf(s.cbs[f].lfpos)
      requires s'.cbs[f].lfdnum == Entry(s'.fs, f, BlockNo(s.cbs[f].lfpos)) != LF_DNULL
      requires BufferLoaded(s.cbs[f], s'.cbs[f], s'.disk, StillCurrent(s, f),
                            Entry(Grown(s.fs, f, BlockOf(s.cbs[f].lfpos) + 1), f, BlockNo(s.cbs[f].lfpos)))
      ensures SetupStep(s, s', lo, f)
    {
      hide Rep, Setup, Grown, DataFlushed, StillCurrent, Entry, BlockOf, BlockNo;
      GrownEntry(s.fs, f, BlockOf(s.cbs[f].lfpos) + 1, BlockNo(s.cbs[f].lfpos));
    }

    static lemma FlushedKeeps(s: Store, f: nat)
      requires f < |s.cbs|
      ensures var s' := Flushed(s, f);
              && s'.dir == s.dir && s'.cur == s.cur && s'.fs == s.fs && s'.cbs == s.cbs[f := s.cbs[f].(lfibdirty := false)]
    {
    }

    // Truncation

    /** The inner loop of `lftruncate`: frees the data blocks of one index block, and clears its entries. */
    method FreeAll(dba: Dba, ghost l: seq<int>) returns (cleared: Dba)
      requires lo <= disk.Length && FreeD(disk[..], lo, dir.lfd_dfree, l)
      requires NoDup(Used(dba)) && forall d :: d in Used(dba) ==> lo <= d < disk.Length && d !in l
      modifies this`dir, disk
      ensures FreeD(disk[..], lo, dir.lfd_dfree, Reversed(Used(dba)) + l)
      ensures SameBut(old(disk[..]), disk[..], lo, [], Used(dba))
      ensures dir == old(dir).(lfd_dfree := dir.lfd_dfree) && cleared == NoData()
    {
      hide FreeD, SameBut, WriteAt, Reversed;
      ghost var was := disk[..];
      SameSelf(was, lo, [], Used(dba));
      EmptyPrefix(dba, l);
      cleared := dba;
      var i := 0;
      while i < LF_IBLEN
        invariant 0 <= i <= LF_IBLEN && disk.Length == |was|
        invariant FreeD(disk[..], lo, dir.lfd_dfree, Reversed(Used(dba[..i])) + l)
        invariant SameBut(was, disk[..], lo, [], Used(dba))
        invariant dir == old(dir).(lfd_dfree := dir.lfd_dfree)
        invariant forall j :: 0 <= j < i ==> cleared[j] == LF_DNULL
        invariant forall j :: i <= j < LF_IBLEN ==> cleared[j] == dba[j]
      {
        var nextdb := cleared[i];
        UsedStep(dba, i);
        assert Used(dba[..i]) + [] == Used(dba[..i]);
        if nextdb != LF_DNULL {
          NextIsNew(dba, i, l);
          FreeOne(disk[..], lo, dir.lfd_dfree, Used(dba[..i]), l, nextdb, was, Used(dba));
          LfDbFree(nextdb);
        }
        cleared := cleared[i := LF_DNULL];
        i := i + 1;
      }
      assert dba[..LF_IBLEN] == dba;
      assert cleared == NoData();
    }

    static lemma EmptyPrefix(dba: Dba, l: seq<int>)
      ensures Reversed(Used(dba[..0])) + l == l
    {
    }

    static lemma FreeOne(disk: seq<Sector>, lo: int, head: int, u: seq<int>, l: seq<int>, d: int, was: seq<Sector>,
                         ds: seq<int>)
      requires FreeD(disk, lo, head, Reversed(u) + l) && 0 <= lo <= d < |disk| && d !in Reversed(u) + l && d in ds
      requires SameBut(was, disk, lo, [], ds)
      ensures FreeD(WriteAt(disk, d, LinkSector(head)), lo, d, Reversed(u + [d]) + l)
      ensures SameBut(was, WriteAt(disk, d, LinkSector(head)), lo, [], ds)
    {
      hide FreeD, SameBut, WriteAt;
      FreeDPush(disk, lo, head, Reversed(u) + l, d);
      ReversedAppend(u, d);
      assert [d] + (Reversed(u) + l) == Reversed(u + [d]) + l;
      WriteSame(disk, lo, d, LinkSector(head), [], ds);
      SameButTrans(was, disk, WriteAt(disk, d, LinkSector(head)), lo, [], ds);
    }

    /** `lftruncate`: a file that is not empty gives all its blocks back. The list of free index blocks becomes the
        chain of the file followed by the old list, the list of free data blocks the data blocks of the file in reverse
        order followed by the old list; no data sector of another file is written. */
    method LfTruncate(f: nat)
      requires Valid() && f < |fs.files| && (dir.lfd_files[f].ld_size != 0 ==> fs.files[f] != [])
      modifies this`dir, this`lfltab, this`cur, this`fs, disk
      ensures Valid() && Moves(old(View()), View(), lo, Op.Truncate(f))
    {
      hide Rep, Flushed, Truncated, Content;
      RepSizes(f);
      if dir.lfd_files[f].ld_size == 0 {
        return;
      }
      ghost var s0 := View();
      if lfltab[f].lfibdirty || lfltab[f].lfdbdirty {
        LfFlush(f);
        FlushedKeeps(s0, f);
      }
      ghost var s := View();
      Unchain(f);
      TruncatedData(s0.disk, s.disk, disk[..], lo, s.fs.files[f], s0.cbs[f]);
    }

    // `lftruncate` from the point where the buffers are clean.
    method Unchain(f: nat)
      requires Valid() && f < |fs.files| && fs.files[f] != [] && f < |lfltab| && !lfltab[f].lfibdirty
      modifies this`dir, this`lfltab, this`cur, this`fs, disk
      ensures Valid() && |old(View()).dir.lfd_files| == |old(View()).cbs| == |old(View()).cur| == |old(View()).fs.files|
      ensures View() == Emptied(old(View()), f, disk[..], dir.lfd_dfree)
      ensures SameBut(old(disk[..]), disk[..], lo, Ids(old(fs).files[f]), Data(old(fs).files[f]))
    {
      hide Rep, Walked, Truncated, PutIb, Content, FreeD, SameBut, IbAt;
      RepSizes(f);
      ghost var s, bs := View(), fs.files[f];
      WalkStart(s, lo, f);
      lfltab := lfltab[f := lfltab[f].(lfpos := 0, lfinum := LF_INULL, lfdnum := LF_DNULL)];
      var ifree := dir.lfd_ifree;
      var firstib := dir.lfd_files[f].ld_ilist;
      dir := dir.(lfd_files := dir.lfd_files[f := Ldentry(0, LF_INULL)]);
      var nextib := firstib;
      ghost var k := 0;
      while nextib != ifree
        invariant k <= |bs| && nextib == if k < |bs| then bs[k].id else ifree
        invariant Walked(s, lo, f, k, disk[..], dir.lfd_dfree)
        invariant dir == Lfdir(dir.lfd_dfree, ifree, s.dir.lfd_files[f := Ldentry(0, LF_INULL)])
        decreases |bs| - k
        modifies this`dir, disk
      {
        nextib := Clear(f, s, nextib, ifree, k);
        k := k + 1;
      }
      if k < |bs| { WalkBlock(s, lo, f, k, disk[..], dir.lfd_dfree); }
      WalkEnd(s, lo, f, disk[..], dir.lfd_dfree);
      dir := dir.(lfd_ifree := firstib);
      cur, fs := cur[f := -1], Truncated(fs, f);
    }

    // One round of the outer loop of `lftruncate`.
    method Clear(ghost f: nat, ghost s: Store, nextib: int, ifree: int, ghost k: nat) returns (next: int)
      requires Rep(s, lo) && f < |s.fs.files| && f < |s.cbs| && !s.cbs[f].lfibdirty && k < |s.fs.files[f]|
      requires nextib == s.fs.files[f][k].id && ifree == At(s.fs.ifree, 0)
      requires Walked(s, lo, f, k, disk[..], dir.lfd_dfree)
      modifies this`dir, disk
      ensures Walked(s, lo, f, k + 1, disk[..], dir.lfd_dfree)
      ensures dir == old(dir).(lfd_dfree := dir.lfd_dfree)
      ensures next == if k + 1 < |s.fs.files[f]| then s.fs.files[f][k + 1].id else ifree
    {
      hide Rep, Walked, Content, FreeD, SameBut, IbAt, NoData, PutIb, Reversed;
      ghost var bs, dfree, was := s.fs.files[f], dir.lfd_dfree, disk[..];
      WalkBlock(s, lo, f, k, was, dfree);
      WalkData(s, lo, f, k);
      WalkSize(s, lo, f, k, was, dfree);
      var iblock := LfIbGet(nextib);
      ContentIs(s, lo, f, k);
      var cleared := FreeAll(iblock.dba, Reversed(Data(bs[..k])) + s.fs.dfree);
      next := if iblock.next == LF_INULL then ifree else iblock.next;
      WalkStep(s, lo, f, k, was, dfree, disk[..], dir.lfd_dfree);
      LfIbPut(nextib, Iblk(next, 0, cleared));
    }

    static lemma WalkSize(s: Store, lo: int, f: nat, k: nat, disk: seq<Sector>, dfree: int)
      requires f < |s.fs.files| && k <= |s.fs.files[f]| && Walked(s, lo, f, k, disk, dfree)
      ensures |disk| == |s.disk| && lo <= |disk|
      ensures FreeD(disk, lo, dfree, Reversed(Data(s.fs.files[f][..k])) + s.fs.dfree)
    {
      hide FreeD, IbAt;
    }

    static lemma ContentIs(s: Store, lo: int, f: nat, k: nat)
      requires Rep(s, lo) && f < |s.fs.files| && k < |s.fs.files[f]|
      ensures var bs := s.fs.files[f];
              && Content(bs, k).dba == bs[k].dba
              && (if Content(bs, k).next == LF_INULL then At(s.fs.ifree, 0) else Content(bs, k).next) == NextOf(s, f, k)
              && NextOf(s, f, k) == if k + 1 < |bs| then bs[k + 1].id else At(s.fs.ifree, 0)
    {
      hide Rep, Partition, FileOk, FreeI, FreeD;
      RepParts(s, lo, f);
      NotNull(s.fs, f);
      if k + 1 < |s.fs.files[f]| { assert Ids(s.fs.files[f])[k + 1] in Ids(s.fs.files[f]); }
    }

    static lemma TruncatedData(a: seq<Sector>, b: seq<Sector>, c: seq<Sector>, lo: int, bs: seq<FBlk>, cb: Lflcblk)
      requires a == b || DataFlushed(a, b, lo, cb)
      requires SameBut(b, c, lo, Ids(bs), Data(bs))
      ensures DataSame(a, c, lo, Data(bs) + [cb.lfdnum])
    {
      hide IbAt, Data;
    }

    // Creation

    /** The part of `lfsopen` that adds a file to the directory. */
    method LfNewFile() returns (status: Status)
      requires Valid()
      modifies this`dir, this`lfltab, this`cur, this`fs
      ensures Valid() && (status == SYSERR <==> |old(dir).lfd_files| >= LF_NUM_DIR_ENT)
      ensures if status == OK then Moves(old(View()), View(), lo, Op.New) else View() == old(View())
    {
      hide Rep, NewFile;
      if |dir.lfd_files| >= LF_NUM_DIR_ENT {
        return SYSERR;
      }
      ghost var s := View();
      NewFileOk(s, lo, FreshCblk());
      dir := dir.(lfd_files := dir.lfd_files + [Ldentry(0, LF_INULL)]);
      lfltab := lfltab + [FreshCblk()];
      cur, fs := cur + [-1], NewFile(fs);
      assert View() == WithNewFile(s, FreshCblk());
      return OK;
    }

    // Positions, stores and closing

    /** `lflseek`: the position moves, within the size of the file; the blocks in memory are replaced by the next setup.
        */
    method LflSeek(f: nat, offset: nat) returns (status: Status)
      requires Valid() && f < |fs.files|
      modifies this`lfltab
      ensures Valid() && f < |dir.lfd_files| && (status == SYSERR <==> offset > dir.lfd_files[f].ld_size)
      ensures if status == OK then Moves(old(View()), View(), lo, Seek(f, offset)) else View() == old(View())
    {
      hide Rep;
      RepSizes(f);
      if offset > dir.lfd_files[f].ld_size {
        return SYSERR;
      }
      BufferOk(View(), lo, f, lfltab[f].(lfpos := offset));
      lfltab := lfltab[f := lfltab[f].(lfpos := offset)];
      return OK;
    }

    /** What `lflputc` does to the buffer and its mark, for any change of the buffer. */
    method StoreBuffer(f: nat, w: Sector)
      requires Valid() && f < |fs.files| && f < |lfltab| && lfltab[f].lfdnum != LF_DNULL
      modifies this`lfltab
      ensures Valid() && Moves(old(View()), View(), lo, Put(f, w))
    {
      hide Rep;
      BufferOk(View(), lo, f, lfltab[f].(lfdblock := w, lfdbdirty := true));
      lfltab := lfltab[f := lfltab[f].(lfdblock := w, lfdbdirty := true)];
    }

    /** `lflclose` of a file, and `lfsopen` of the same file in the same control block. */
    method Reopen(f: nat)
      requires Valid() && f < |fs.files|
      modifies this`lfltab, this`cur, disk
      ensures Valid() && Moves(old(View()), View(), lo, Op.Reopen(f))
    {
      hide Rep, Flushed;
      RepSizes(f);
      ghost var s := View();
      ReopenOk(s, lo, f);
      if lfltab[f].lfdbdirty || lfltab[f].lfibdirty {
        LfFlush(f);
        FlushedKeeps(s, f);
      }
      var c := lfltab[f].(lfpos := 0, lfinum := LF_INULL, lfdnum := LF_DNULL, lfibdirty := false, lfdbdirty := false);
      lfltab := lfltab[f := c];
      cur := cur[f := -1];
      assert View() == Reopened(s, f);
    }

    /** `lfscreate`: lays both free lists out on the disk, for at least one index block and one data block. The
        directory that it writes is the one that `lfsopen` reads back into memory. */
    method LfsCreate(lfiblks: int, dsiz: int) returns (status: Status)
      requires disk.Length == dsiz / LF_BLKSIZ && 0 < lfiblks && 0 <= dsiz
      requires var ibsectors, sectors := (lfiblks + IB_PER_SECTOR - 1) / IB_PER_SECTOR, dsiz / LF_BLKSIZ;
               ibsectors <= sectors / 2 ==> ibsectors + 1 < sectors
      modifies this, disk
      ensures var ibsectors := (lfiblks + IB_PER_SECTOR - 1) / IB_PER_SECTOR;
              && (status == SYSERR <==> ibsectors > disk.Length / 2)
              && (status == OK ==> Valid() && lo == ibsectors + 1)
              && (status == OK ==> fs == Fs([], UpFrom(0, ibsectors * IB_PER_SECTOR), UpFrom(lo, disk.Length - lo)))
    {
      var sectors := dsiz / LF_BLKSIZ;
      var ibsectors := (lfiblks + IB_PER_SECTOR - 1) / IB_PER_SECTOR;
      var n := ibsectors * IB_PER_SECTOR;
      if ibsectors > sectors / 2 {
        return SYSERR;
      }
      lo := ibsectors + 1;
      dir, lfltab := Lfdir(ibsectors + 1, 0, []), [];
      cur := [];
      var dblks := sectors - ibsectors - 1;
      CreateIndex(n, ibsectors);
      CreateData(ibsectors + 1, dblks, n);
      fs := Fs([], UpFrom(0, n), UpFrom(lo, dblks));
      NoFiles(View(), lo, n, dblks);
      return OK;
    }

    // The loop of `lfscreate` over the index blocks.
    method CreateIndex(n: int, ibsectors: int)
      requires n == ibsectors * IB_PER_SECTOR > 0 && lo == ibsectors + 1 <= disk.Length
      modifies disk
      ensures forall j :: 0 <= j < n ==> INode(disk[..], lo, j, Up(j, n))
    {
      hide INode, PutIb;
      var iblock := LfIbClear(0);
      var i := 0;
      while i < n - 1
        invariant 0 <= i <= n - 1 && iblock == Iblk(iblock.next, 0, NoData())
        invariant forall j :: 0 <= j < i ==> INode(disk[..], lo, j, Up(j, n))
      {
        iblock := iblock.(next := i + 1);
        PutINode(disk[..], lo, ibsectors, i, iblock, n);
        LfIbPut(i, iblock);
        i := i + 1;
      }
      iblock := iblock.(next := LF_INULL);
      PutINode(disk[..], lo, ibsectors, i, iblock, n);
      LfIbPut(i, iblock);
    }

    static lemma PutINode(disk: seq<Sector>, lo: int, ibsectors: int, i: nat, b: Iblk, n: int)
      requires n == ibsectors * IB_PER_SECTOR && lo == ibsectors + 1 <= |disk| && i < n && b.next == Up(i, n)
      requires forall j :: 0 <= j < i ==> INode(disk, lo, j, Up(j, n))
      ensures OnDisk(disk, i)
      ensures forall j :: 0 <= j <= i ==> INode(PutIb(disk, i, b), lo, j, Up(j, n))
    {
      assert Ib2Sect(i) < lo;
      forall j | 0 <= j <= i
        ensures INode(PutIb(disk, i, b), lo, j, Up(j, n))
      {
        if j < i { assert INode(disk, lo, j, Up(j, n)); }
        PutGet(disk, i, b, j);
      }
    }

    // The loop of `lfscreate` over the data blocks.
    method CreateData(first: int, dblks: int, ghost n: int)
      requires lo == first && 0 < first && dblks > 0 && first + dblks == disk.Length
      requires forall j :: 0 <= j < n ==> INode(disk[..], lo, j, Up(j, n))
      modifies disk
      ensures forall j :: 0 <= j < n ==> INode(disk[..], lo, j, Up(j, n))
      ensures forall j :: 0 <= j < dblks ==> DNode(disk[..], lo, lo + j, UpData(lo, j, dblks))
    {
      hide INode, DNode;
      var dbindex, i := first, 0;
      while i < dblks - 1
        invariant 0 <= i <= dblks - 1 && dbindex == first + i
        invariant forall j :: 0 <= j < n ==> INode(disk[..], lo, j, Up(j, n))
        invariant forall j :: 0 <= j < i ==> DNode(disk[..], lo, lo + j, UpData(lo, j, dblks))
      {
        ghost var was := disk[..];
        PutDNode(was, lo, dbindex, i, dblks, n);
        disk[dbindex] := LinkSector(dbindex + 1);
        assert disk[..] == was[dbindex := LinkSector(dbindex + 1)];
        dbindex := dbindex + 1;
        i := i + 1;
      }
      ghost var was := disk[..];
      PutDNode(was, lo, dbindex, i, dblks, n);
      disk[dbindex] := LinkSector(LF_DNULL);
      assert disk[..] == was[dbindex := LinkSector(LF_DNULL)];
    }

    static lemma PutDNode(disk: seq<Sector>, lo: int, d: int, i: nat, m: int, n: int)
      requires 0 < lo && d == lo + i < |disk| && i < m
      requires forall j :: 0 <= j < n ==> INode(disk, lo, j, Up(j, n))
      requires forall j :: 0 <= j < i ==> DNode(disk, lo, lo + j, UpData(lo, j, m))
      ensures var disk' := disk[d := LinkSector(UpData(lo, i, m))];
              && (forall j :: 0 <= j < n ==> INode(disk', lo, j, Up(j, n)))
              && (forall j :: 0 <= j <= i ==> DNode(disk', lo, lo + j, UpData(lo, j, m)))
    {
      var disk' := disk[d := LinkSector(UpData(lo, i, m))];
      forall j | 0 <= j < n
        ensures INode(disk', lo, j, Up(j, n))
      {
        assert INode(disk, lo, j, Up(j, n));
        assert disk'[Ib2Sect(j)] == disk[Ib2Sect(j)];
      }
      forall j | 0 <= j <= i
        ensures DNode(disk', lo, lo + j, UpData(lo, j, m))
      {
        if j < i { assert DNode(disk, lo, lo + j, UpData(lo, j, m)); }
      }
    }
  }

  // A disk of four sectors: seven index blocks in sector 1, data blocks 2 and 3, and one file without blocks.
  lemma OneFile(s: Store, s': Store, lo: int)
    requires s.fs == Fs([], UpFrom(0, 7), UpFrom(2, 2)) && Moves(s, s', lo, Op.New)
    ensures Sized(s') && |s'.cbs| == 1 && s'.cbs[0] == FreshCblk() && s'.fs == Fs([[]], UpFrom(0, 7), UpFrom(2, 2))
  {
    hide Rep, UpFrom, FreshCblk;
    MovesSized(s, s', lo, Op.New);
  }

  lemma OneFileBare(s: Store)
    requires Sized(s) && |s.cbs| == 1 && s.cbs[0] == FreshCblk() && s.fs == Fs([[]], UpFrom(0, 7), UpFrom(2, 2))
    ensures Bare(s, Op.SetUp(0)) && BlockNo(s.cbs[0].lfpos) == 0 && At(s.fs.dfree, 1) == 3
    ensures Setup(s.fs, 0, s.cbs[0].lfpos) != None
  {
    PanicsIff(s.fs, 0, 0);
    hide Setup;
  }

  lemma SetAgain(s: Store, s1: Store, s2: Store, lo: int)
    requires SetupStep(s, s1, lo, 0) && s.cbs[0].lfpos == 0 && Moves(s1, s2, lo, Op.Reopen(0))
    ensures s2 == Reopened(s1, 0) && Sized(s2) && |s2.cbs| > 0 && Setup(s2.fs, 0, s2.cbs[0].lfpos) != None
  {
    hide Rep, FileOk, FreeI, FreeD, Partition, DataFlushed, BufferLoaded, FlushedDisk, Setup, StillCurrent, SetupStep;
    MovesSized(s1, s2, lo, Op.Reopen(0));
    SetupFacts(s, s1, lo, 0);
    SetupRep(s, s1, lo, 0);
    RepParts(s, lo, 0);
    SetupCovers(s.fs, 0, 0);
  }

  lemma SetupRep(s: Store, s': Store, lo: int, f: nat)
    requires SetupStep(s, s', lo, f)
    ensures Rep(s, lo)
  {
    hide Rep, Setup;
  }

  /** On a new disk of four sectors with one file, the zeros that the first setup gives are gone after the file has been
      closed, opened and set up again: the buffer holds the link to free block 3 instead. */
  method ZerosLost(d: LocalFs) returns (given: Sector, found: Sector)
    requires d.disk.Length == 4
    modifies d, d.disk
    ensures given == Zeros() && found[0] == 3
  {
    hide Rep, SetupStep, Moves, Setup, Bare, Reopened, UpFrom;
    var status := d.LfsCreate(7, 4 * LF_BLKSIZ);
    ghost var s := d.View();
    RepSized(s, d.lo);
    status := d.LfNewFile();
    ghost var s0 := d.View();
    OneFile(s, s0, d.lo);
    OneFileBare(s0);
    var ok := d.LfSetup(0);
    ghost var s1 := d.View();
    SetupFacts(s0, s1, d.lo, 0);
    given := d.lfltab[0].lfdblock;
    d.Reopen(0);
    ghost var s2 := d.View();
    SetAgain(s0, s1, s2, d.lo);
    ok := d.LfSetup(0);
    SetupFacts(s2, d.View(), d.lo, 0);
    found := d.lfltab[0].lfdblock;
    BareBlockReopened(s0, s1, s2, d.View(), d.lo, 0);
  }
}
