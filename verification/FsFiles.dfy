/** The block layer (Chapter 19) refines plain files: over every run of setups, stores, seeks, flushes, truncations,
    closings and creations, what is stored in a block of a file is what a later setup of that block brings back. */
module FsFiles {
  import opened Types
  import opened Lists
  import opened FsDisk
  import opened FsState
  import opened FsRep
  import opened FsOps
  import opened FsTrunc
  import opened FsContents

  /** A plain file: the position, the size, the number of the block in memory, and what each block holds. */
  datatype File = File(pos: nat, size: int, at: Option<nat>, data: map<nat, Sector>)

  const NO_DATA := File(0, 0, None, map[])

  predicate Can(a: seq<File>, op: Op) {
    op.New? || (op.f < |a| && (op.Put? ==> a[op.f].at.Some?))
  }

  function FileAfter(x: File, op: Op): File
    requires !op.New? && (op.Put? ==> x.at.Some?)
  {
    match op
    case SetUp(_) =>
      var n := BlockNo(x.pos);
      x.(at := Some(n), data := if n in x.data then x.data else x.data[n := Zeros()])
    case Put(_, w) => x.(data := x.data[x.at.value := w])
    case Seek(_, pos) => x.(pos := pos)
    case Flush(_) => x
    case Truncate(_) => if x.size == 0 then x else NO_DATA
    case Reopen(_) => x.(pos := 0, at := None)
  }

  function Do(a: seq<File>, op: Op): seq<File>
    requires Can(a, op)
  {
    if op.New? then a + [NO_DATA] else a[op.f := FileAfter(a[op.f], op)]
  }

  /** What a data block of file f holds: the buffer, if it is in memory. */
  function Seen(s: Store, f: nat, d: int): Sector
    requires f < |s.cbs|
  {
    if d == s.cbs[f].lfdnum then s.cbs[f].lfdblock else if 0 <= d < |s.disk| then s.disk[d] else Zeros()
  }

  /** The store represents file x under number f. */
  ghost predicate ShowsFile(s: Store, f: nat, x: File)
    requires Sized(s) && f < |s.cbs|
  {
    var c := s.cbs[f];
    && x.pos == c.lfpos && x.size == s.dir.lfd_files[f].ld_size
    && (x.at == None <==> c.lfdnum == LF_DNULL) && (x.at.Some? ==> Entry(s.fs, f, x.at.value) == c.lfdnum)
    && (forall n: nat :: n in x.data <==> Entry(s.fs, f, n) != LF_DNULL)
    && (forall n: nat :: n in x.data ==> x.data[n] == Seen(s, f, Entry(s.fs, f, n)))
  }

  ghost predicate Shows(s: Store, a: seq<File>) {
    Sized(s) && |a| == |s.cbs| && forall f :: 0 <= f < |a| ==> ShowsFile(s, f, a[f])
  }

  /** The buffer of f will not be lost: it is marked, or the disk holds the same. */
  ghost predicate Synced(s: Store, f: nat)
    requires f < |s.cbs|
  {
    var c := s.cbs[f];
    c.lfdnum == LF_DNULL || c.lfdbdirty || (0 <= c.lfdnum < |s.disk| && c.lfdblock == s.disk[c.lfdnum])
  }

  /** A setup that takes a new data block while the mark is clear: `lfsetup` does not set it. */
  ghost predicate Bare(s: Store, op: Op) {
    && Sized(s) && op.SetUp? && op.f < |s.cbs|
    && Entry(s.fs, op.f, BlockNo(s.cbs[op.f].lfpos)) == LF_DNULL && !s.cbs[op.f].lfdbdirty
  }

  lemma DataOf(s: Store, lo: int, g: nat)
    requires Rep(s, lo) && g < |s.fs.files|
    ensures Sized(s) && 0 <= lo && (forall d :: d in Data(s.fs.files[g]) ==> lo <= d < |s.disk|)
    ensures s.cbs[g].lfdnum == LF_DNULL || s.cbs[g].lfdnum in Data(s.fs.files[g])
  {
    hide Partition, FreeI, FreeD, ChainOk, Data;
    RepParts(s, lo, g);
  }

  // Every store represents some plain files

  lemma {:induction false} UsedNumber(dba: seq<int>, d: int) returns (e: nat)
    requires d in Used(dba)
    ensures e < |dba| && dba[e] == d != LF_DNULL
  {
    e := |dba| - 1;
    if dba[e] != d || d == LF_DNULL { e := UsedNumber(dba[..e], d); }
  }

  lemma {:induction false} DataNumber(bs: seq<FBlk>, d: int) returns (n: nat)
    requires d in Data(bs)
    ensures n / LF_IBLEN < |bs| && bs[n / LF_IBLEN].dba[n % LF_IBLEN] == d
  {
    var k := |bs| - 1;
    if d in Used(bs[k].dba) {
      var e := UsedNumber(bs[k].dba, d);
      n := k * LF_IBLEN + e;
      assert n / LF_IBLEN == k && n % LF_IBLEN == e;
    } else {
      n := DataNumber(bs[..k], d);
    }
  }

  lemma FileShown(s: Store, lo: int, f: nat) returns (x: File)
    requires Rep(s, lo) && Sized(s) && f < |s.cbs|
    ensures ShowsFile(s, f, x)
  {
    hide Rep, Data, Seen;
    DataOf(s, lo, f);
    var c, at := s.cbs[f], None;
    if c.lfdnum != LF_DNULL {
      var n := DataNumber(s.fs.files[f], c.lfdnum);
      at := Some(n);
    }
    x := File(c.lfpos, s.dir.lfd_files[f].ld_size, at,
              map n: nat | n < |s.fs.files[f]| * LF_IBLEN && Entry(s.fs, f, n) != LF_DNULL
                :: Seen(s, f, Entry(s.fs, f, n)));
  }

  /** Every store represents some plain files. */
  lemma EveryStoreShows(s: Store, lo: int) returns (a: seq<File>)
    requires Rep(s, lo)
    ensures Shows(s, a)
  {
    hide ShowsFile, Rep;
    a := [];
    RepSized(s, lo);
    while |a| < |s.cbs|
      invariant |a| <= |s.cbs| && forall f :: 0 <= f < |a| ==> ShowsFile(s, f, a[f])
    {
      var x := FileShown(s, lo, |a|);
      a := a + [x];
    }
  }

  // Files that an operation does not name

  ghost predicate Elsewhere(s: Store, s': Store, lo: int, g: nat)
    requires Sized(s) && g < |s.cbs|
  {
    && Sized(s') && g < |s'.cbs| && s'.cbs[g] == s.cbs[g] && s'.fs.files[g] == s.fs.files[g]
    && s'.dir.lfd_files[g].ld_size == s.dir.lfd_files[g].ld_size && |s'.disk| == |s.disk|
    && forall d :: d in Data(s.fs.files[g]) ==> 0 <= lo <= d < |s.disk| && s'.disk[d] == s.disk[d]
  }

  // A file keeps its blocks when only data sectors of another file are written.
  lemma OtherSectors(s: Store, s': Store, lo: int, f: nat, g: nat, ds: seq<int>)
    requires Rep(s, lo) && Sized(s) && Sized(s') && f < |s.cbs| && g < |s.cbs| == |s'.cbs| && f != g
    requires DataSame(s.disk, s'.disk, lo, ds)
    requires forall d :: d in ds ==> d == LF_DNULL || d in Data(s.fs.files[f])
    requires s'.cbs[g] == s.cbs[g] && s'.fs.files[g] == s.fs.files[g]
    requires s'.dir.lfd_files[g].ld_size == s.dir.lfd_files[g].ld_size
    ensures Elsewhere(s, s', lo, g)
  {
    DataOf(s, lo, g);
    RepParts(s, lo, g);
    NotNull(s.fs, g);
    hide Rep, Partition, Data;
    forall d | d in Data(s.fs.files[g])
      ensures lo <= d < |s.disk| && s'.disk[d] == s.disk[d]
    {
      FilesApart(s.fs, f, g, d);
    }
  }

  // Data block d of file g holds the same.
  lemma SeenSame(s: Store, s': Store, lo: int, g: nat, n: nat)
    requires Rep(s, lo) && Sized(s) && g < |s.cbs| && Elsewhere(s, s', lo, g)
    ensures var d := Entry(s.fs, g, n); Entry(s'.fs, g, n) == d && (d != LF_DNULL ==> Seen(s', g, d) == Seen(s, g, d))
  {
    hide Rep, Data;
    if Entry(s.fs, g, n) != LF_DNULL { EntryIn(s, lo, g, n); }
  }

  lemma ElsewhereShows(s: Store, s': Store, lo: int, g: nat, x: File)
    requires Rep(s, lo) && Sized(s) && g < |s.cbs| && Elsewhere(s, s', lo, g) && ShowsFile(s, g, x)
    ensures ShowsFile(s', g, x)
  {
    hide Rep, Data, Entry, Seen;
    forall n: nat
      ensures var d := Entry(s.fs, g, n); Entry(s'.fs, g, n) == d && (d != LF_DNULL ==> Seen(s', g, d) == Seen(s, g, d))
    {
      SeenSame(s, s', lo, g, n);
    }
  }

  lemma ElsewhereSynced(s: Store, s': Store, lo: int, g: nat)
    requires Rep(s, lo) && Sized(s) && g < |s.cbs| && Elsewhere(s, s', lo, g)
    ensures Synced(s', g) <==> Synced(s, g)
  {
    DataOf(s, lo, g);
    hide Rep, Data;
  }

  // One operation

  ghost predicate SetupCares(s: Store, op: Op)
    requires Sized(s)
  {
    (op.SetUp? || op.Reopen?) && op.f < |s.cbs| ==> Synced(s, op.f)
  }

  lemma SetupNumbers(s: Store, s': Store, lo: int, f: nat, n: nat)
    requires SetupStep(s, s', lo, f)
    ensures var m, d, d' := BlockNo(s.cbs[f].lfpos), Entry(s.fs, f, n), Entry(s'.fs, f, n);
            && (d != LF_DNULL ==> 0 <= lo <= d < |s.disk| && d' == d)
            && (d' != LF_DNULL <==> d != LF_DNULL || n == m)
            && (d' == s'.cbs[f].lfdnum <==> n == m)
  {
    hide Rep, FileOk, Partition, FreeI, FreeD, Setup, Entry, BlockNo, StillCurrent, DataFlushed, BufferLoaded, Data;
    var m := BlockNo(s.cbs[f].lfpos);
    RepParts(s, lo, f);
    SetupEntries(s.fs, f, s.cbs[f].lfpos, f, n);
    SetupEntries(s.fs, f, s.cbs[f].lfpos, f, m);
    if Entry(s'.fs, f, n) == Entry(s'.fs, f, m) { EntryApart(s', lo, f, f, n, m); }
    if Entry(s.fs, f, n) != LF_DNULL { EntryIn(s, lo, f, n); }
  }

  // The file of a setup, number by number.
  lemma SetupSeen(s: Store, s': Store, lo: int, f: nat, n: nat)
    requires SetupStep(s, s', lo, f) && Synced(s, f)
    ensures var d, d' := Entry(s.fs, f, n), Entry(s'.fs, f, n);
            && (d != LF_DNULL ==> d' == d && Seen(s', f, d') == Seen(s, f, d))
            && (d == LF_DNULL && d' != LF_DNULL ==> Seen(s', f, d') == Zeros())
  {
    hide Rep, Setup, Entry, BlockNo;
    SetupNumbers(s, s', lo, f, n);
  }

  lemma SetupShows(s: Store, s': Store, lo: int, f: nat, x: File)
    requires SetupStep(s, s', lo, f) && Synced(s, f) && ShowsFile(s, f, x)
    ensures ShowsFile(s', f, FileAfter(x, Op.SetUp(f)))
  {
    hide Rep, Setup, Entry, BlockNo, Seen, Synced, DataFlushed, BufferLoaded, StillCurrent;
    forall n: nat
      ensures var d, d' := Entry(s.fs, f, n), Entry(s'.fs, f, n);
              && (d != LF_DNULL ==> d' == d && Seen(s', f, d') == Seen(s, f, d))
              && (d == LF_DNULL && d' != LF_DNULL ==> n == BlockNo(x.pos) && Seen(s', f, d') == Zeros())
    {
      SetupNumbers(s, s', lo, f, n);
      SetupSeen(s, s', lo, f, n);
    }
    SetupNumbers(s, s', lo, f, BlockNo(x.pos));
  }

  lemma PutShows(s: Store, s': Store, lo: int, f: nat, w: Sector, x: File)
    requires Moves(s, s', lo, Put(f, w)) && Sized(s) && ShowsFile(s, f, x)
    ensures Sized(s') && x.at.Some? && ShowsFile(s', f, FileAfter(x, Put(f, w)))
  {
    hide Rep, Entry;
    forall n: nat
      ensures n != x.at.value && Entry(s.fs, f, n) != LF_DNULL ==> Entry(s.fs, f, n) != s.cbs[f].lfdnum
    {
      if n != x.at.value && Entry(s.fs, f, n) == s.cbs[f].lfdnum { EntryApart(s, lo, f, f, n, x.at.value); }
    }
    hide Moves;
    assert forall n: nat :: Entry(s'.fs, f, n) == Entry(s.fs, f, n);
  }

  lemma WriteBackShows(s: Store, s': Store, lo: int, op: Op, x: File)
    requires Moves(s, s', lo, op) && (op.Flush? || op.Reopen?) && Sized(s) && ShowsFile(s, op.f, x)
    requires op.Reopen? ==> Synced(s, op.f)
    ensures Sized(s') && ShowsFile(s', op.f, FileAfter(x, op))
  {
    hide Rep, Entry, FlushedDisk;
    FlushedSectors(s, lo, op.f);
    forall n: nat | Entry(s.fs, op.f, n) != LF_DNULL
      ensures Seen(s', op.f, Entry(s.fs, op.f, n)) == Seen(s, op.f, Entry(s.fs, op.f, n))
    {
      EntryIn(s, lo, op.f, n);
    }
    hide Moves, Seen;
    assert forall n: nat :: Entry(s'.fs, op.f, n) == Entry(s.fs, op.f, n);
  }

  lemma OpShows(s: Store, s': Store, lo: int, op: Op, x: File)
    requires Moves(s, s', lo, op) && !op.New? && Sized(s) && ShowsFile(s, op.f, x) && SetupCares(s, op)
    ensures Sized(s') && op.f < |s'.cbs| && (op.Put? ==> x.at.Some?) && ShowsFile(s', op.f, FileAfter(x, op))
  {
    hide Rep, Entry, Seen, Synced;
    match op
    case SetUp(f) => SetupShows(s, s', lo, f, x);
    case Put(f, w) => PutShows(s, s', lo, f, w, x);
    case Seek(f, pos) =>
      hide ShowsFile;
      SeekShows(s, s', f, pos, x);
    case Flush(_) => WriteBackShows(s, s', lo, op, x);
    case Truncate(f) =>
      hide ShowsFile;
      TruncateShows(s, s', lo, f, x);
    case Reopen(_) => WriteBackShows(s, s', lo, op, x);
  }

  lemma SeekShows(s: Store, s': Store, f: nat, pos: nat, x: File)
    requires Sized(s) && f < |s.cbs| && ShowsFile(s, f, x) && s' == WithBlock(s, f, s.cbs[f].(lfpos := pos))
    ensures ShowsFile(s', f, x.(pos := pos))
  {
    hide Entry;
    assert forall n: nat :: Entry(s'.fs, f, n) == Entry(s.fs, f, n);
  }

  lemma TruncateShows(s: Store, s': Store, lo: int, f: nat, x: File)
    requires Sized(s) && f < |s.cbs| && ShowsFile(s, f, x) && TruncateStep(s, s', lo, f)
    ensures Sized(s') && ShowsFile(s', f, FileAfter(x, Op.Truncate(f)))
  {
    hide DataSame, Data, Reversed;
  }

  // The other files.
  lemma OpElsewhere(s: Store, s': Store, lo: int, op: Op, g: nat)
    requires Moves(s, s', lo, op) && Sized(s) && g < |s.cbs| && (op.New? || op.f != g)
    ensures Elsewhere(s, s', lo, g)
  {
    hide Rep, Setup, Entry, DataFlushed, FlushedDisk, Truncated, Data, BlockNo, BufferLoaded, StillCurrent;
    DataOf(s, lo, g);
    if !op.New? {
      var f := op.f;
      DataOf(s, lo, f);
      if op.SetUp? {
        SetupFiles(s, s', lo, f, g);
        FlushedFrame(s, s'.disk, lo, f);
        OtherSectors(s, s', lo, f, g, [s.cbs[f].lfdnum]);
      } else if op.Truncate? {
        TruncatedFiles(s.fs, f, g);
        if s.dir.lfd_files[f].ld_size != 0 {
          OtherSectors(s, s', lo, f, g, Data(s.fs.files[f]) + [s.cbs[f].lfdnum]);
        }
      } else if op.Flush? || op.Reopen? {
        FlushedSectors(s, lo, f);
        FlushedFrame(s, Flushed(s, f).disk, lo, f);
        if s'.disk != s.disk { OtherSectors(s, s', lo, f, g, [s.cbs[f].lfdnum]); }
      }
    }
  }

  lemma SetupFiles(s: Store, s': Store, lo: int, f: nat, g: nat)
    requires SetupStep(s, s', lo, f) && g < |s.fs.files| && g != f
    ensures |s'.fs.files| == |s.fs.files| && s'.fs.files[g] == s.fs.files[g]
  {
    hide FileOk, Partition, FreeI, FreeD, Setup, DataFlushed, BufferLoaded, StillCurrent;
    RepParts(s, lo, f);
    SetupCovers(s.fs, f, s.cbs[f].lfpos);
  }

  lemma TruncatedFiles(fs: Fs, f: nat, g: nat)
    requires f < |fs.files| && g < |fs.files| && g != f
    ensures |Truncated(fs, f).files| == |fs.files| && Truncated(fs, f).files[g] == fs.files[g]
  {
  }

  lemma FlushedFrame(s: Store, disk: seq<Sector>, lo: int, f: nat)
    requires f < |s.cbs| && DataFlushed(s.disk, disk, lo, s.cbs[f])
    ensures DataSame(s.disk, disk, lo, [s.cbs[f].lfdnum])
  {
  }

  /** Every operation does to the files that the store represents what it does to plain files. */
  lemma StepRefines(s: Store, s': Store, lo: int, op: Op, a: seq<File>)
    requires Moves(s, s', lo, op) && Shows(s, a) && SetupCares(s, op)
    ensures Can(a, op) && Shows(s', Do(a, op))
  {
    hide Moves, ShowsFile, SetupCares, Rep, Elsewhere;
    MovesSized(s, s', lo, op);
    if !op.New? { OpShows(s, s', lo, op, a[op.f]); }
    hide FileAfter;
    forall g | 0 <= g < |Do(a, op)|
      ensures ShowsFile(s', g, Do(a, op)[g])
    {
      if g == |a| {
        NewShows(s, s', lo, op);
      } else if op.New? || g != op.f {
        OpElsewhere(s, s', lo, op, g);
        ElsewhereShows(s, s', lo, g, a[g]);
      }
    }
  }

  lemma MovesSized(s: Store, s': Store, lo: int, op: Op)
    requires Moves(s, s', lo, op)
    ensures Rep(s, lo) && Rep(s', lo) && Sized(s) && Sized(s') && (!op.New? ==> op.f < |s.cbs|)
    ensures |s'.cbs| == |s.cbs| + if op.New? then 1 else 0
  {
    hide FileOk, Partition, FreeI, FreeD, Setup, DataFlushed, BufferLoaded, StillCurrent, FlushedDisk;
  }

  lemma NewShows(s: Store, s': Store, lo: int, op: Op)
    requires Moves(s, s', lo, op) && op.New? && Sized(s) && Sized(s') && |s'.cbs| == |s.cbs| + 1
    ensures ShowsFile(s', |s.cbs|, NO_DATA) && Synced(s', |s.cbs|)
  {
    hide Rep;
  }

  // Which buffers are safe

  /** Every operation but a bare setup keeps the buffer of a file safe, and a store makes it safe. */
  lemma StepSynced(s: Store, s': Store, lo: int, op: Op, g: nat)
    requires Moves(s, s', lo, op) && Sized(s) && Sized(s') && g < |s'.cbs|
    requires g < |s.cbs| && !(op.Put? && op.f == g) ==> Synced(s, g)
    requires !(Bare(s, op) && op.f == g)
    ensures Synced(s', g)
  {
    hide Rep, Entry, Setup, DataSame, DataFlushed, BufferLoaded, StillCurrent, Elsewhere;
    MovesSized(s, s', lo, op);
    if g == |s.cbs| {
      NewShows(s, s', lo, op);
    } else if op.New? || op.f != g {
      OpElsewhere(s, s', lo, op, g);
      ElsewhereSynced(s, s', lo, g);
    } else if op.SetUp? {
      SetupSynced(s, s', lo, g);
    } else if op.Flush? {
      FlushSynced(s, lo, g);
    }
  }

  lemma FlushSynced(s: Store, lo: int, f: nat)
    requires Rep(s, lo) && Sized(s) && f < |s.cbs| && Synced(s, f)
    ensures Synced(Flushed(s, f), f)
  {
    hide Rep, FlushedDisk;
    FlushedSectors(s, lo, f);
    DataOf(s, lo, f);
  }

  lemma SetupSynced(s: Store, s': Store, lo: int, f: nat)
    requires SetupStep(s, s', lo, f) && Synced(s, f) && !Bare(s, Op.SetUp(f))
    ensures Synced(s', f)
  {
    SetupNumbers(s, s', lo, f, BlockNo(s.cbs[f].lfpos));
    hide Rep, Entry, Setup, BlockNo;
  }

  // Runs

  ghost predicate Trace(ss: seq<Store>, ops: seq<Op>, lo: int) {
    |ss| == |ops| + 1 && forall i :: 0 <= i < |ops| ==> Moves(ss[i], ss[i + 1], lo, ops[i])
  }

  predicate StoresFirst(ops: seq<Op>, f: nat) {
    ops != [] ==> ops[0].Put? && ops[0].f == f
  }

  /** Every bare setup of the run is followed at once by a store into the same file, as `lflputc` does it. */
  ghost predicate Filled(ss: seq<Store>, ops: seq<Op>)
    requires |ss| == |ops| + 1
  {
    forall i :: 0 <= i < |ops| && ops[i].SetUp? && Bare(ss[i], ops[i]) ==> StoresFirst(ops[i + 1..], ops[i].f)
  }

  /** Every buffer is safe, or is stored into at once. */
  ghost predicate Ready(s: Store, ops: seq<Op>)
    requires Sized(s)
  {
    forall g :: 0 <= g < |s.cbs| ==> Synced(s, g) || StoresFirst(ops, g)
  }

  predicate CanAll(a: seq<File>, ops: seq<Op>)
    decreases |ops|
  {
    ops == [] || (Can(a, ops[0]) && CanAll(Do(a, ops[0]), ops[1..]))
  }

  function DoAll(a: seq<File>, ops: seq<Op>): seq<File>
    requires CanAll(a, ops)
    decreases |ops|
  {
    if ops == [] then a else DoAll(Do(a, ops[0]), ops[1..])
  }

  /** Over every run in which no bare block is left without a store, the store represents at the end what plain files
      hold after the same operations. */
  lemma {:induction false} RunRefines(ss: seq<Store>, ops: seq<Op>, lo: int, a: seq<File>)
    requires Trace(ss, ops, lo) && Filled(ss, ops) && Shows(ss[0], a) && Ready(ss[0], ops)
    ensures CanAll(a, ops) && Shows(ss[|ops|], DoAll(a, ops))
    decreases |ops|
  {
    hide Moves, Shows, Bare, Synced, Can, Do;
    if ops != [] {
      assert Moves(ss[0], ss[1], lo, ops[0]);
      ShowsSized(ss[0], a);
      ReadyNext(ss[0], ss[1], lo, ops);
      StepRefines(ss[0], ss[1], lo, ops[0], a);
      TraceTail(ss, ops, lo);
      RunRefines(ss[1..], ops[1..], lo, Do(a, ops[0]));
    }
  }

  lemma ShowsSized(s: Store, a: seq<File>)
    requires Shows(s, a)
    ensures Sized(s) && |a| == |s.cbs|
  {
  }

  lemma TraceTail(ss: seq<Store>, ops: seq<Op>, lo: int)
    requires Trace(ss, ops, lo) && Filled(ss, ops) && ops != []
    ensures Trace(ss[1..], ops[1..], lo) && Filled(ss[1..], ops[1..])
  {
    hide Moves, Bare, StoresFirst;
    forall i | 0 <= i < |ops[1..]| && ops[1..][i].SetUp? && Bare(ss[1..][i], ops[1..][i])
      ensures StoresFirst(ops[1..][i + 1..], ops[1..][i].f)
    {
      assert Bare(ss[i + 1], ops[i + 1]);
      assert ops[1..][i + 1..] == ops[i + 2..];
    }
  }

  lemma ReadyNext(s: Store, s': Store, lo: int, ops: seq<Op>)
    requires ops != [] && Moves(s, s', lo, ops[0]) && Sized(s) && Ready(s, ops)
    requires ops[0].SetUp? && Bare(s, ops[0]) ==> StoresFirst(ops[1..], ops[0].f)
    ensures Sized(s') && Ready(s', ops[1..]) && SetupCares(s, ops[0])
  {
    hide Moves, Synced, Rep, StoresFirst;
    MovesSized(s, s', lo, ops[0]);
    forall g | 0 <= g < |s'.cbs|
      ensures Synced(s', g) || StoresFirst(ops[1..], g)
    {
      if !(Bare(s, ops[0]) && ops[0].f == g) {
        if g < |s.cbs| { StoresFirstIs(ops, g); }
        StepSynced(s, s', lo, ops[0], g);
      }
    }
    if !ops[0].New? { StoresFirstIs(ops, ops[0].f); }
  }

  lemma StoresFirstIs(ops: seq<Op>, f: nat)
    requires ops != []
    ensures StoresFirst(ops, f) <==> ops[0].Put? && ops[0].f == f
  {
  }

  // Reading back

  /** No operation of the run stores into block n of file f, or truncates f to any effect. */
  predicate Spares(a: seq<File>, ops: seq<Op>, f: nat, n: nat)
    requires CanAll(a, ops)
    decreases |ops|
  {
    ops == [] || (
      && (f < |a| && ops[0].Put? && ops[0].f == f ==> a[f].at != Some(n))
      && (f < |a| && ops[0] == Op.Truncate(f) ==> a[f].size == 0)
      && Spares(Do(a, ops[0]), ops[1..], f, n))
  }

  lemma {:induction false} SparedKeeps(a: seq<File>, ops: seq<Op>, f: nat, n: nat)
    requires CanAll(a, ops) && f < |a| && n in a[f].data && Spares(a, ops, f, n)
    ensures f < |DoAll(a, ops)| && n in DoAll(a, ops)[f].data && DoAll(a, ops)[f].data[n] == a[f].data[n]
    decreases |ops|
  {
    if ops != [] { SparedKeeps(Do(a, ops[0]), ops[1..], f, n); }
  }

  /** What is stored into the data block in memory is back in the buffer after any run that ends with a setup of the
      same block number, whatever other blocks and files the run has set up, stored into, flushed, closed or truncated.
      */
  lemma StoredComesBack(ss: seq<Store>, ops: seq<Op>, lo: int, a: seq<File>, f: nat, w: Sector)
    requires Trace(ss, ops, lo) && Filled(ss, ops) && Shows(ss[0], a) && Ready(ss[0], ops)
    requires |ops| >= 2 && ops[0] == Put(f, w) && ops[|ops| - 1] == Op.SetUp(f)
    requires f < |a| && a[f].at == Some(BlockNo(ss[|ops|].cbs[f].lfpos))
    requires CanAll(a, ops) ==> Spares(Do(a, ops[0]), ops[1..], f, a[f].at.value)
    ensures ss[|ops|].cbs[f].lfdblock == w
  {
    hide Moves, Bare, Ready, Filled, Synced;
    RunRefines(ss, ops, lo, a);
    var s, n, a1 := ss[|ops|], a[f].at.value, Do(a, ops[0]);
    SparedKeeps(a1, ops[1..], f, n);
    assert Moves(ss[|ops| - 1], s, lo, Op.SetUp(f));
    SetupSelects(ss[|ops| - 1], s, lo, f);
    hide DoAll, CanAll, Spares, Do, Entry;
    assert ShowsFile(s, f, DoAll(a, ops)[f]);
  }

  lemma SetupSelects(s: Store, s': Store, lo: int, f: nat)
    requires Moves(s, s', lo, Op.SetUp(f))
    ensures Sized(s') && f < |s'.cbs| && s'.cbs[f].lfdnum == Entry(s'.fs, f, BlockNo(s'.cbs[f].lfpos)) != LF_DNULL
  {
    hide Rep, Setup, Entry, BlockNo, DataFlushed, BufferLoaded, StillCurrent;
  }

  // The block that is lost

  /** A setup leaves a buffer that will not be lost exactly when it is not bare: a new data block under a clear mark
      holds zeros in memory, and on the disk the link of the free list. */
  lemma SetupSyncedIff(s: Store, s': Store, lo: int, f: nat)
    requires SetupStep(s, s', lo, f) && Synced(s, f) && 0 < lo
    ensures Synced(s', f) <==> !Bare(s, Op.SetUp(f))
  {
    if Bare(s, Op.SetUp(f)) {
      LinkStays(s, s', lo, f);
    } else {
      SetupSynced(s, s', lo, f);
    }
  }

  lemma LinkStays(s: Store, s': Store, lo: int, f: nat)
    requires SetupStep(s, s', lo, f) && Bare(s, Op.SetUp(f)) && 0 < lo
    ensures var c' := s'.cbs[f];
            && lo <= c'.lfdnum < |s'.disk| && s'.disk[c'.lfdnum][0] == At(s.fs.dfree, 1) != 0
            && c'.lfdblock == Zeros() && !c'.lfdbdirty
  {
    hide Rep, FileOk, Partition, FreeI, FreeD, Setup, StillCurrent, Data, Entry, BlockNo;
    var m := BlockNo(s.cbs[f].lfpos);
    RepParts(s, lo, f);
    SetupEntries(s.fs, f, s.cbs[f].lfpos, f, m);
    FreeDNext(s.disk, lo, s.dir.lfd_dfree, s.fs.dfree);
    FreeLink(s.disk, lo, s.dir.lfd_dfree, s.fs.dfree);
  }

  lemma FreeLink(disk: seq<Sector>, lo: int, head: int, l: seq<int>)
    requires FreeD(disk, lo, head, l) && l != [] && 0 < lo <= |disk|
    ensures 0 <= l[0] < |disk| && disk[l[0]][0] == At(l, 1) != 0
  {
    assert DNode(disk, lo, l[0], At(l, 1));
    if |l| > 1 { assert DNode(disk, lo, l[1], At(l, 2)); }
  }

  /** Every data block of a file holds after a setup what it held before, exactly when the buffer was safe or the setup
      left it where it was. */
  lemma SetupKeepsIff(s: Store, s': Store, lo: int, f: nat)
    requires SetupStep(s, s', lo, f)
    ensures (forall d :: d in Data(s.fs.files[f]) ==> Seen(s', f, d) == Seen(s, f, d)) <==>
            Synced(s, f) || (s'.cbs[f].lfdnum == s.cbs[f].lfdnum == StillCurrent(s, f))
  {
    hide Rep, Setup, Data, StartAt, Entry, BlockNo;
    var c, c' := s.cbs[f], s'.cbs[f];
    DataOf(s, lo, f);
    OldOrNew(s, s', lo, f);
    hide SetupStep;
    SetupFacts(s, s', lo, f);
    if !Synced(s, f) { assert c.lfdnum in Data(s.fs.files[f]); }
  }

  lemma SetupFacts(s: Store, s': Store, lo: int, f: nat)
    requires SetupStep(s, s', lo, f)
    ensures |s'.disk| == |s.disk| && Sized(s) && Sized(s') && f < |s.cbs| == |s'.cbs|
    ensures DataFlushed(s.disk, s'.disk, lo, s.cbs[f])
    ensures BufferLoaded(s.cbs[f], s'.cbs[f], s'.disk, StillCurrent(s, f), Entry(s.fs, f, BlockNo(s.cbs[f].lfpos)))
    ensures s'.cbs[f].lfpos == s.cbs[f].lfpos && Some(s'.fs) == Setup(s.fs, f, s.cbs[f].lfpos)
  {
    hide Rep, Setup, StillCurrent, Entry, BlockNo, BufferLoaded;
  }

  // The data block selected is a new one exactly when the entry was null.
  lemma OldOrNew(s: Store, s': Store, lo: int, f: nat)
    requires SetupStep(s, s', lo, f)
    ensures var d := Entry(s.fs, f, BlockNo(s.cbs[f].lfpos));
            if d == LF_DNULL then s'.cbs[f].lfdnum !in Data(s.fs.files[f]) else s'.cbs[f].lfdnum == d
  {
    hide Rep, FileOk, Partition, FreeI, FreeD, Setup, StillCurrent, Data, Entry, BlockNo;
    var m := BlockNo(s.cbs[f].lfpos);
    RepParts(s, lo, f);
    SetupEntries(s.fs, f, s.cbs[f].lfpos, f, m);
    if Entry(s.fs, f, m) == LF_DNULL { FreeApart(s.fs, f, At(s.fs.dfree, 0)); }
  }

  /** A bare setup, a seek and a setup of another block: the first block no longer holds the zeros it was given. */
  lemma BareBlockLost(s: Store, s1: Store, s2: Store, s3: Store, lo: int, f: nat)
    requires SetupStep(s, s1, lo, f) && SetupStep(s2, s3, lo, f) && 0 < lo
    requires s2 == WithBlock(s1, f, s1.cbs[f].(lfpos := s2.cbs[f].lfpos))
    requires Bare(s, Op.SetUp(f)) && BlockNo(s2.cbs[f].lfpos) != BlockNo(s.cbs[f].lfpos)
    ensures var d := s1.cbs[f].lfdnum;
            && d == Entry(s3.fs, f, BlockNo(s.cbs[f].lfpos)) != LF_DNULL
            && Seen(s1, f, d) == Zeros() != Seen(s3, f, d)
  {
    hide Rep, Setup, Entry, BlockNo, Bare, StillCurrent;
    LinkStays(s, s1, lo, f);
    SetupNumbers(s2, s3, lo, f, BlockNo(s.cbs[f].lfpos));
    SetupFacts(s2, s3, lo, f);
    SetupAt(s, s1, lo, f);
    hide SetupStep, BufferLoaded;
  }

  lemma SetupAt(s: Store, s': Store, lo: int, f: nat)
    requires SetupStep(s, s', lo, f)
    ensures s'.cbs[f].lfdnum == Entry(s'.fs, f, BlockNo(s.cbs[f].lfpos)) != LF_DNULL
  {
    hide Rep, Setup, StillCurrent, Entry, BlockNo, DataFlushed, BufferLoaded;
  }

  /** A bare setup, and a setup of the same block after the file was closed and opened: the buffer holds the link of the
      free list in place of the zeros. */
  lemma BareBlockReopened(s: Store, s1: Store, s2: Store, s3: Store, lo: int, f: nat)
    requires SetupStep(s, s1, lo, f) && SetupStep(s2, s3, lo, f) && 0 < lo
    requires s2 == Reopened(s1, f) && Bare(s, Op.SetUp(f)) && BlockNo(s.cbs[f].lfpos) == 0
    ensures s1.cbs[f].lfdblock == Zeros() && s3.cbs[f].lfdblock[0] == At(s.fs.dfree, 1)
  {
    hide Rep, Setup, Entry, Bare, FlushedDisk;
    LinkStays(s, s1, lo, f);
    SetupAt(s, s1, lo, f);
    FlushedSectors(s1, lo, f);
    SetupFacts(s2, s3, lo, f);
    hide SetupStep;
  }
}
