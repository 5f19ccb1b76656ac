/** What the files hold (Chapter 19): the block layer, with its buffers, chains and free lists, implements files that
    map block numbers to sectors. */
module FsContents {
  import opened Types
  import opened Lists
  import opened FsDisk
  import opened FsState
  import opened FsRep
  import opened FsOps
  import opened FsTrunc

  function Zeros(): Sector {
    seq(SECTOR_WORDS, _ => 0)
  }

  // What the procedures do to data sectors and buffers

  /** What sector d holds once the data block in memory has been written back. */
  function WrittenBack(disk: seq<Sector>, c: Lflcblk, d: nat): Sector
    requires d < |disk|
  {
    if c.lfdbdirty && c.lfdnum == d then c.lfdblock else disk[d]
  }

  /** The data sectors of disk', with the data block in memory written back if it is marked. */
  ghost predicate DataFlushed(disk: seq<Sector>, disk': seq<Sector>, lo: int, c: Lflcblk) {
    0 <= lo <= |disk| == |disk'| && forall d :: lo <= d < |disk| ==> disk'[d] == WrittenBack(disk, c, d)
  }

  ghost predicate Sized(s: Store) {
    |s.dir.lfd_files| == |s.cbs| == |s.cur| == |s.fs.files|
  }

  lemma RepSized(s: Store, lo: int)
    requires Rep(s, lo)
    ensures Sized(s)
  {
    hide FileOk, Partition, FreeI, FreeD;
  }

  /** The data block with number n of file f, or null. */
  function Entry(fs: Fs, f: nat, n: nat): int
    requires f < |fs.files|
  {
    if n / LF_IBLEN < |fs.files[f]| then fs.files[f][n / LF_IBLEN].dba[n % LF_IBLEN] else LF_DNULL
  }

  /** The number of the data block that covers a position. */
  function BlockNo(pos: nat): nat {
    pos / LF_BLKSIZ
  }

  lemma BlockNoParts(pos: nat)
    ensures BlockNo(pos) / LF_IBLEN == BlockOf(pos) && BlockNo(pos) % LF_IBLEN == EntryOf(pos)
  {
  }

  /** Where the walk along the chain begins: behind the position it starts over. */
  function StartAt(s: Store, f: nat): int
    requires f < |s.cbs| == |s.cur|
  {
    if s.cur[f] == -1 || s.cbs[f].lfpos < s.cur[f] * LF_IDATA then 0 else s.cur[f]
  }

  /** The control block with data block d in its buffer: zeros if there was none, what was there if it was data block
      lfdnum already, and otherwise what the disk holds. */
  ghost predicate BufferLoaded(c: Lflcblk, c': Lflcblk, disk: seq<Sector>, lfdnum: int, d: int) {
    if d == LF_DNULL then c'.lfdblock == Zeros() && c'.lfdbdirty == c.lfdbdirty
    else if d == lfdnum then c'.lfdblock == c.lfdblock && c'.lfdbdirty == c.lfdbdirty
    else 0 <= d < |disk| && c'.lfdblock == disk[d] && !c'.lfdbdirty
  }

  /** The data block in memory, unless the walk to the position leaves its index block. */
  function StillCurrent(s: Store, f: nat): int
    requires f < |s.cbs| == |s.cur|
  {
    if StartAt(s, f) == BlockOf(s.cbs[f].lfpos) then s.cbs[f].lfdnum else LF_DNULL
  }

  /** The other files are as they were, and so are all sizes. */
  ghost predicate OthersAs(s: Store, s': Store, f: nat) {
    && Sized(s) && Sized(s') && f < |s.cbs| == |s'.cbs|
    && s'.cbs == s.cbs[f := s'.cbs[f]] && s'.cur == s.cur[f := s'.cur[f]]
    && forall g :: 0 <= g < |s.cbs| ==> s'.dir.lfd_files[g].ld_size == s.dir.lfd_files[g].ld_size
  }

  ghost predicate SetupStep(s: Store, s': Store, lo: int, f: nat) {
    && Rep(s, lo) && Rep(s', lo) && OthersAs(s, s', f)
    && var c, c' := s.cbs[f], s'.cbs[f];
       && c'.lfpos == c.lfpos && Some(s'.fs) == Setup(s.fs, f, c.lfpos)
       && c'.lfdnum == Entry(s'.fs, f, BlockNo(c.lfpos)) != LF_DNULL
       && s'.cur[f] == BlockOf(c.lfpos)
       && DataFlushed(s.disk, s'.disk, lo, c)
       && BufferLoaded(c, c', s'.disk, StillCurrent(s, f), Entry(s.fs, f, BlockNo(c.lfpos)))
  }

  lemma FlushedSectors(s: Store, lo: int, f: nat)
    requires Rep(s, lo) && f < |s.fs.files|
    ensures f < |s.cbs| && DataFlushed(s.disk, Flushed(s, f).disk, lo, s.cbs[f])
  {
    hide Partition, FreeI, FreeD, IbAt, Data, Spliced;
    RepParts(s, lo, f);
    var c := s.cbs[f];
    if c.lfibdirty { assert BlockOk(s.disk, lo, DirtyAt(c, s.cur[f]), s.fs.files[f], s.cur[f]); }
    hide FileOk;
  }

  // Growing does not change what is there, and adds null entries only.
  lemma GrownEntry(fs: Fs, f: nat, m: nat, n: nat)
    requires f < |fs.files|
    ensures Entry(Grown(fs, f, m), f, n) == Entry(fs, f, n)
  {
    GrownIs(fs, f, m);
    hide Grown;
  }

  /** The data sectors outside ds are the same. */
  ghost predicate DataSame(disk: seq<Sector>, disk': seq<Sector>, lo: int, ds: seq<int>) {
    0 <= lo <= |disk| == |disk'| && forall d :: lo <= d < |disk| && d !in ds ==> disk'[d] == disk[d]
  }

  // Operations on an open file

  datatype Op =
    | SetUp(f: nat) | Put(f: nat, w: Sector) | Seek(f: nat, pos: nat) | Flush(f: nat)
    | Truncate(f: nat) | Reopen(f: nat) | New

  function WithBlock(s: Store, f: nat, c: Lflcblk): Store
    requires f < |s.cbs|
  {
    s.(cbs := s.cbs[f := c])
  }

  /** Closing a file, which writes its blocks back, and opening it again (`lflclose`, `lfsopen`). */
  function Reopened(s: Store, f: nat): Store
    requires f < |s.cbs| == |s.cur|
  {
    var c := s.cbs[f];
    var s1 := if c.lfdbdirty || c.lfibdirty then Flushed(s, f) else s;
    var c' := c.(lfpos := 0, lfinum := LF_INULL, lfdnum := LF_DNULL, lfibdirty := false, lfdbdirty := false);
    s1.(cbs := s.cbs[f := c'],
        cur := s.cur[f := -1])
  }

  ghost predicate TruncateStep(s: Store, s': Store, lo: int, f: nat)
    requires Sized(s) && f < |s.cbs|
  {
    var c := s.cbs[f];
    if s.dir.lfd_files[f].ld_size == 0 then s' == s
    else
      && s'.fs == Truncated(s.fs, f)
      && s'.dir.lfd_files == s.dir.lfd_files[f := Ldentry(0, LF_INULL)]
      && s'.cbs == s.cbs[f := c.(lfpos := 0, lfinum := LF_INULL, lfdnum := LF_DNULL, lfibdirty := false)]
      && s'.cur == s.cur[f := -1]
      && DataSame(s.disk, s'.disk, lo, Data(s.fs.files[f]) + [c.lfdnum])
  }

  function FreshCblk(): Lflcblk {
    Lflcblk(0, LF_INULL, Iblk(0, 0, seq(LF_IBLEN, _ => 0)), LF_DNULL, Zeros(), false, false)
  }

  /** One operation on the store. */
  ghost predicate Moves(s: Store, s': Store, lo: int, op: Op) {
    && Rep(s, lo) && Rep(s', lo) && (!op.New? ==> op.f < |s.cbs|)
    && match op
       case SetUp(f) => SetupStep(s, s', lo, f)
       case Put(f, w) =>
         s.cbs[f].lfdnum != LF_DNULL && s' == WithBlock(s, f, s.cbs[f].(lfdblock := w, lfdbdirty := true))
       case Seek(f, pos) => s' == WithBlock(s, f, s.cbs[f].(lfpos := pos))
       case Flush(f) => s' == Flushed(s, f)
       case Truncate(f) => TruncateStep(s, s', lo, f)
       case Reopen(f) => s' == Reopened(s, f)
       case New => s' == WithNewFile(s, FreshCblk())
  }

  // Different numbers and different files have different data blocks

  lemma {:induction false} CountTwo(bs: seq<FBlk>, n: nat, m: nat, d: int)
    requires n != m && n / LF_IBLEN < |bs| && m / LF_IBLEN < |bs| && d != LF_DNULL
    requires bs[n / LF_IBLEN].dba[n % LF_IBLEN] == d == bs[m / LF_IBLEN].dba[m % LF_IBLEN]
    ensures multiset(Data(bs))[d] >= 2
  {
    var k, e := n / LF_IBLEN, n % LF_IBLEN;
    var bs' := bs[k := bs[k].(dba := bs[k].dba[e := LF_DNULL])];
    assert bs[k].dba[e := LF_DNULL][e := d] == bs[k].dba;
    assert bs == bs'[k := bs'[k].(dba := bs'[k].dba[e := d])];
    DataSet(bs', k, e, d, d);
    assert m / LF_IBLEN != k || m % LF_IBLEN != e;
    DataHas(bs', m / LF_IBLEN, m % LF_IBLEN);
    assert d in multiset(Data(bs'));
  }

  lemma EntryIn(s: Store, lo: int, f: nat, n: nat)
    requires Rep(s, lo) && f < |s.fs.files| && Entry(s.fs, f, n) != LF_DNULL
    ensures Entry(s.fs, f, n) in Data(s.fs.files[f]) && lo <= Entry(s.fs, f, n) < |s.disk|
  {
    hide Partition, FreeI, FreeD, ChainOk, MemoryOk, Data;
    RepParts(s, lo, f);
    DataHas(s.fs.files[f], n / LF_IBLEN, n % LF_IBLEN);
  }

  lemma EntryApart(s: Store, lo: int, f: nat, g: nat, n: nat, m: nat)
    requires Rep(s, lo) && f < |s.fs.files| && g < |s.fs.files|
    requires Entry(s.fs, f, n) == Entry(s.fs, g, m) != LF_DNULL
    ensures f == g && n == m
  {
    var d := Entry(s.fs, f, n);
    EntryIn(s, lo, f, n);
    EntryIn(s, lo, g, m);
    RepParts(s, lo, f);
    FlatHas(s.fs.files, f, d);
    hide Data, FlatData;
    assert multiset(AllD(s.fs))[d] == multiset(s.fs.dfree)[d] + multiset(FlatData(s.fs.files))[d];
    if f != g {
      FilesApart(s.fs, f, g, d);
    } else if n != m {
      CountTwo(s.fs.files[f], n, m, d);
    }
  }

  /** What a setup does to the numbering: the missing entry for the position becomes the first free data block. */
  lemma SetupEntries(fs: Fs, f: nat, pos: nat, g: nat, n: nat)
    requires Partition(fs) && f < |fs.files| && g < |fs.files| && Setup(fs, f, pos).Some?
    ensures var fs' := Setup(fs, f, pos).value;
            && |fs'.files| == |fs.files|
            && Entry(fs', g, n) == if g == f && n == BlockNo(pos) && Entry(fs, g, n) == LF_DNULL then At(fs.dfree, 0)
                                   else Entry(fs, g, n)
  {
    hide Extended, Grown, Partition, NoData, Taken;
    var k, e := BlockOf(pos), EntryOf(pos);
    GrownIs(fs, f, k + 1);
    GrownEntry(fs, f, k + 1, n);
    BlockNoParts(pos);
    var fs1 := Grown(fs, f, k + 1);
    ExtendedChain(fs, f, Taken(fs, f, k + 1));
    if fs1.files[f][k].dba[e] == LF_DNULL { AddedEntry(fs1, f, k, e); }
  }

  /** The position, the buffer and its mark do not matter to the representation. */
  lemma BufferOk(s: Store, lo: int, f: nat, c': Lflcblk)
    requires Rep(s, lo) && f < |s.fs.files| && f < |s.cbs|
    requires c' == s.cbs[f].(lfpos := c'.lfpos, lfdblock := c'.lfdblock, lfdbdirty := c'.lfdbdirty)
    ensures Rep(WithBlock(s, f, c'), lo)
  {
    hide Rep, Partition, FreeI, FreeD, ChainOk, Data, SameBut, Content;
    RepParts(s, lo, f);
    SameSelf(s.disk, lo, [], []);
    RepChanged(s, WithBlock(s, f, c'), lo, f, [], []);
  }

  lemma ReopenOk(s: Store, lo: int, f: nat)
    requires Rep(s, lo) && f < |s.fs.files| && f < |s.cbs| == |s.cur|
    ensures Rep(Reopened(s, f), lo)
  {
    hide Rep, Partition, FreeI, FreeD, ChainOk, Data, SameBut, Content, FlushedDisk;
    var s1 := if s.cbs[f].lfdbdirty || s.cbs[f].lfibdirty then Flushed(s, f) else s;
    FlushOk(s, lo, f);
    RepParts(s1, lo, f);
    SameSelf(s1.disk, lo, [], []);
    RepChanged(s1, Reopened(s, f), lo, f, [], []);
  }
}
