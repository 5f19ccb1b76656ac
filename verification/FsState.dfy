/** The files of the local file system as chains of index blocks, and what `lfsetup` and `lftruncate` do to them
    (Chapter 19). */
module FsState {
  import opened Types
  import opened FsDisk

  /** An index block of a file: its number and its data blocks. */
  datatype FBlk = FBlk(id: int, dba: Dba)

  /** The chain of every file, and the two free lists. */
  datatype Fs = Fs(files: seq<seq<FBlk>>, ifree: seq<int>, dfree: seq<int>)

  function Ids(bs: seq<FBlk>): (r: seq<int>)
    ensures |r| == |bs| && forall k :: 0 <= k < |bs| ==> r[k] == bs[k].id
  {
    seq(|bs|, k requires 0 <= k < |bs| => bs[k].id)
  }

  /** The data blocks that an index block points to, in order. */
  function Used(dba: seq<int>): seq<int> {
    if dba == [] then [] else Used(dba[..|dba| - 1]) + if dba[|dba| - 1] == LF_DNULL then [] else [dba[|dba| - 1]]
  }

  /** The data blocks of a chain, in order. */
  function Data(bs: seq<FBlk>): seq<int> {
    if bs == [] then [] else Data(bs[..|bs| - 1]) + Used(bs[|bs| - 1].dba)
  }

  function Reversed(l: seq<int>): (r: seq<int>)
    ensures |r| == |l| && forall k :: 0 <= k < |l| ==> r[k] == l[|l| - 1 - k]
  {
    seq(|l|, k requires 0 <= k < |l| => l[|l| - 1 - k])
  }

  // Steps

  function WithFile(fs: Fs, f: nat, bs: seq<FBlk>): Fs
    requires f < |fs.files|
  {
    fs.(files := fs.files[f := bs])
  }

  /** The first free index block goes to the end of the chain of f. */
  function AddBlock(fs: Fs, f: nat): Fs
    requires f < |fs.files| && fs.ifree != []
  {
    WithFile(fs, f, fs.files[f] + [FBlk(fs.ifree[0], NoData())]).(ifree := fs.ifree[1..])
  }

  /** The chain of f extended until it has n blocks or no index block is free. */
  function Grown(fs: Fs, f: nat, n: nat): (g: Fs)
    requires f < |fs.files|
    ensures |g.files| == |fs.files|
    decreases n - |fs.files[f]|
  {
    if |fs.files[f]| >= n || fs.ifree == [] then fs else Grown(AddBlock(fs, f), f, n)
  }

  /** The first free data block goes to entry e of block k of f. */
  function AddData(fs: Fs, f: nat, k: nat, e: nat): Fs
    requires f < |fs.files| && k < |fs.files[f]| && e < LF_IBLEN && fs.dfree != []
  {
    var b := fs.files[f][k];
    WithFile(fs, f, fs.files[f][k := b.(dba := b.dba[e := fs.dfree[0]])]).(dfree := fs.dfree[1..])
  }

  /** The index block and the entry in it that cover a position. */
  function BlockOf(pos: nat): nat {
    pos / LF_IDATA
  }

  function EntryOf(pos: nat): (e: nat)
    ensures e < LF_IBLEN
  {
    pos % LF_IDATA / LF_BLKSIZ
  }

  /** What `lfsetup` leaves behind; None when it panics for want of a block. */
  function Setup(fs: Fs, f: nat, pos: nat): Option<Fs>
    requires f < |fs.files|
  {
    var k, e := BlockOf(pos), EntryOf(pos);
    var g := Grown(fs, f, k + 1);
    if |g.files[f]| <= k then None
    else if g.files[f][k].dba[e] != LF_DNULL then Some(g)
    else if g.dfree == [] then None
    else Some(AddData(g, f, k, e))
  }

  /** `lftruncate` of a file that is not empty. */
  function Truncated(fs: Fs, f: nat): Fs
    requires f < |fs.files|
  {
    Fs(fs.files[f := []], Ids(fs.files[f]) + fs.ifree, Reversed(Data(fs.files[f])) + fs.dfree)
  }

  /** A new directory entry (`lfsopen`). */
  function NewFile(fs: Fs): Fs {
    fs.(files := fs.files + [[]])
  }

  // All blocks

  function FlatIds(files: seq<seq<FBlk>>): seq<int> {
    if files == [] then [] else Ids(files[0]) + FlatIds(files[1..])
  }

  function FlatData(files: seq<seq<FBlk>>): seq<int> {
    if files == [] then [] else Data(files[0]) + FlatData(files[1..])
  }

  function AllI(fs: Fs): seq<int> {
    fs.ifree + FlatIds(fs.files)
  }

  function AllD(fs: Fs): seq<int> {
    fs.dfree + FlatData(fs.files)
  }

  /** No block is in two places, and no block number is a null pointer. */
  ghost predicate Partition(fs: Fs) {
    && (forall x :: multiset(AllI(fs))[x] <= 1) && LF_INULL !in AllI(fs)
    && (forall x :: multiset(AllD(fs))[x] <= 1) && LF_DNULL !in AllD(fs)
  }

  // Conservation

  lemma {:induction false} IdsUpdate(files: seq<seq<FBlk>>, f: nat, bs: seq<FBlk>, x: int)
    requires f < |files|
    ensures multiset(FlatIds(files[f := bs]))[x] + multiset(Ids(files[f]))[x]
            == multiset(FlatIds(files))[x] + multiset(Ids(bs))[x]
  {
    hide Ids;
    var files' := files[f := bs];
    assert multiset(FlatIds(files))[x] == multiset(Ids(files[0]))[x] + multiset(FlatIds(files[1..]))[x];
    assert multiset(FlatIds(files'))[x] == multiset(Ids(files'[0]))[x] + multiset(FlatIds(files'[1..]))[x];
    if f == 0 {
      assert files'[1..] == files[1..];
    } else {
      assert files'[1..] == files[1..][f - 1 := bs];
      IdsUpdate(files[1..], f - 1, bs, x);
    }
  }

  lemma {:induction false} DataUpdate(files: seq<seq<FBlk>>, f: nat, bs: seq<FBlk>, x: int)
    requires f < |files|
    ensures multiset(FlatData(files[f := bs]))[x] + multiset(Data(files[f]))[x]
            == multiset(FlatData(files))[x] + multiset(Data(bs))[x]
  {
    hide Data;
    var files' := files[f := bs];
    assert multiset(FlatData(files))[x] == multiset(Data(files[0]))[x] + multiset(FlatData(files[1..]))[x];
    assert multiset(FlatData(files'))[x] == multiset(Data(files'[0]))[x] + multiset(FlatData(files'[1..]))[x];
    if f == 0 {
      assert files'[1..] == files[1..];
    } else {
      assert files'[1..] == files[1..][f - 1 := bs];
      DataUpdate(files[1..], f - 1, bs, x);
    }
  }

  /** A file and the free lists exchange blocks. */
  lemma Exchanged(fs: Fs, fs': Fs, f: nat, x: int)
    requires f < |fs.files| == |fs'.files| && fs'.files == fs.files[f := fs'.files[f]]
    requires multiset(fs'.ifree)[x] + multiset(Ids(fs'.files[f]))[x]
            == multiset(fs.ifree)[x] + multiset(Ids(fs.files[f]))[x]
    requires multiset(fs'.dfree)[x] + multiset(Data(fs'.files[f]))[x]
            == multiset(fs.dfree)[x] + multiset(Data(fs.files[f]))[x]
    ensures multiset(AllI(fs'))[x] == multiset(AllI(fs))[x] && multiset(AllD(fs'))[x] == multiset(AllD(fs))[x]
  {
    hide Ids, Data, FlatIds, FlatData;
    IdsUpdate(fs.files, f, fs'.files[f], x);
    DataUpdate(fs.files, f, fs'.files[f], x);
    assert multiset(AllI(fs))[x] == multiset(fs.ifree)[x] + multiset(FlatIds(fs.files))[x];
    assert multiset(AllI(fs'))[x] == multiset(fs'.ifree)[x] + multiset(FlatIds(fs'.files))[x];
    assert multiset(AllD(fs))[x] == multiset(fs.dfree)[x] + multiset(FlatData(fs.files))[x];
    assert multiset(AllD(fs'))[x] == multiset(fs'.dfree)[x] + multiset(FlatData(fs'.files))[x];
  }

  ghost predicate SameBlocks(fs: Fs, fs': Fs) {
    forall x :: multiset(AllI(fs'))[x] == multiset(AllI(fs))[x] && multiset(AllD(fs'))[x] == multiset(AllD(fs))[x]
  }

  lemma SamePartition(fs: Fs, fs': Fs)
    requires Partition(fs) && SameBlocks(fs, fs')
    ensures Partition(fs')
  {
    hide AllI, AllD;
    forall x ensures multiset(AllI(fs'))[x] <= 1 && multiset(AllD(fs'))[x] <= 1 {
      assert multiset(AllI(fs'))[x] == multiset(AllI(fs))[x];
    }
    assert multiset(AllI(fs))[LF_INULL] == 0 && multiset(AllD(fs))[LF_DNULL] == 0;
    assert multiset(AllI(fs'))[LF_INULL] == 0 && multiset(AllD(fs'))[LF_DNULL] == 0;
  }

  lemma NoDataUsed()
    ensures Used(NoData()) == []
  {
    NullsUsed(LF_IBLEN);
  }

  lemma {:induction false} NullsUsed(n: nat)
    ensures Used(seq(n, _ => LF_DNULL)) == []
  {
    var s := seq(n, _ => LF_DNULL);
    if n > 0 {
      assert s[..n - 1] == seq(n - 1, _ => LF_DNULL);
      NullsUsed(n - 1);
    }
  }

  lemma AddBlockKeeps(fs: Fs, f: nat)
    requires f < |fs.files| && fs.ifree != []
    ensures SameBlocks(fs, AddBlock(fs, f))
  {
    var bs, b := fs.files[f], FBlk(fs.ifree[0], NoData());
    var fs' := AddBlock(fs, f);
    assert (bs + [b])[..|bs|] == bs;
    NoDataUsed();
    assert Data(bs + [b]) == Data(bs) + [];
    assert Ids(bs + [b]) == Ids(bs) + [b.id];
    assert fs.ifree == [b.id] + fs.ifree[1..];
    hide Ids, Data, AllI, AllD;
    forall x ensures multiset(AllI(fs'))[x] == multiset(AllI(fs))[x] && multiset(AllD(fs'))[x] == multiset(AllD(fs))[x] {
      assert multiset(fs.ifree)[x] == multiset([b.id])[x] + multiset(fs.ifree[1..])[x];
      Exchanged(fs, fs', f, x);
    }
  }

  lemma {:induction false} GrownKeeps(fs: Fs, f: nat, n: nat)
    requires f < |fs.files|
    ensures SameBlocks(fs, Grown(fs, f, n))
    decreases n - |fs.files[f]|
  {
    hide AllI, AllD;
    if |fs.files[f]| < n && fs.ifree != [] {
      AddBlockKeeps(fs, f);
      GrownKeeps(AddBlock(fs, f), f, n);
    }
  }

  // How often x is used, from the entries before the last and the last one.
  lemma UsedLast(dba: seq<int>, x: int)
    requires dba != []
    ensures var n := |dba| - 1;
            multiset(Used(dba))[x] == multiset(Used(dba[..n]))[x] + if dba[n] == x && x != LF_DNULL then 1 else 0
  {
  }

  lemma {:induction false} UsedSet(dba: seq<int>, e: nat, d: int, x: int)
    requires e < |dba| && dba[e] == LF_DNULL && d != LF_DNULL
    ensures multiset(Used(dba[e := d]))[x] == multiset(Used(dba))[x] + if x == d then 1 else 0
  {
    hide Used;
    var n, dba' := |dba| - 1, dba[e := d];
    UsedLast(dba, x);
    UsedLast(dba', x);
    if e == n {
      assert dba'[..n] == dba[..n];
    } else {
      assert dba'[..n] == dba[..n][e := d];
      UsedSet(dba[..n], e, d, x);
    }
  }

  lemma {:induction false} DataSet(bs: seq<FBlk>, k: nat, e: nat, d: int, x: int)
    requires k < |bs| && e < LF_IBLEN && bs[k].dba[e] == LF_DNULL && d != LF_DNULL
    ensures multiset(Data(bs[k := bs[k].(dba := bs[k].dba[e := d])]))[x]
            == multiset(Data(bs))[x] + if x == d then 1 else 0
  {
    hide Used;
    var n := |bs| - 1;
    var bs' := bs[k := bs[k].(dba := bs[k].dba[e := d])];
    assert multiset(Data(bs))[x] == multiset(Data(bs[..n]))[x] + multiset(Used(bs[n].dba))[x];
    assert multiset(Data(bs'))[x] == multiset(Data(bs'[..n]))[x] + multiset(Used(bs'[n].dba))[x];
    if k == n {
      assert bs'[..n] == bs[..n];
      UsedSet(bs[k].dba, e, d, x);
    } else {
      assert bs'[..n] == bs[..n][k := bs[..n][k].(dba := bs[..n][k].dba[e := d])];
      DataSet(bs[..n], k, e, d, x);
    }
  }

  lemma AddDataKeeps(fs: Fs, f: nat, k: nat, e: nat)
    requires f < |fs.files| && k < |fs.files[f]| && e < LF_IBLEN && fs.dfree != []
    requires fs.files[f][k].dba[e] == LF_DNULL && fs.dfree[0] != LF_DNULL
    ensures SameBlocks(fs, AddData(fs, f, k, e))
  {
    var fs', d := AddData(fs, f, k, e), fs.dfree[0];
    assert Ids(fs'.files[f]) == Ids(fs.files[f]);
    assert fs.dfree == [d] + fs.dfree[1..];
    hide Ids, Data, AllI, AllD;
    forall x ensures multiset(AllI(fs'))[x] == multiset(AllI(fs))[x] && multiset(AllD(fs'))[x] == multiset(AllD(fs))[x] {
      DataSet(fs.files[f], k, e, d, x);
      assert multiset(fs.dfree)[x] == multiset([d])[x] + multiset(fs.dfree[1..])[x];
      Exchanged(fs, fs', f, x);
    }
  }

  lemma {:induction false} ReversedCount(l: seq<int>, x: int)
    ensures multiset(Reversed(l))[x] == multiset(l)[x]
  {
    if l != [] {
      var n := |l| - 1;
      ReversedCount(l[..n], x);
      assert Reversed(l) == [l[n]] + Reversed(l[..n]);
      assert l == l[..n] + [l[n]];
    }
  }

  lemma TruncatedKeeps(fs: Fs, f: nat)
    requires f < |fs.files|
    ensures SameBlocks(fs, Truncated(fs, f))
  {
    var fs', bs := Truncated(fs, f), fs.files[f];
    assert Ids([]) == [] && Data([]) == [];
    hide Ids, Data, AllI, AllD;
    forall x ensures multiset(AllI(fs'))[x] == multiset(AllI(fs))[x] && multiset(AllD(fs'))[x] == multiset(AllD(fs))[x] {
      ReversedCount(Data(bs), x);
      assert multiset(fs'.ifree)[x] == multiset(Ids(bs))[x] + multiset(fs.ifree)[x];
      assert multiset(fs'.dfree)[x] == multiset(Reversed(Data(bs)))[x] + multiset(fs.dfree)[x];
      Exchanged(fs, fs', f, x);
    }
  }

  lemma {:induction false} FlatNew(files: seq<seq<FBlk>>)
    ensures FlatIds(files + [[]]) == FlatIds(files) && FlatData(files + [[]]) == FlatData(files)
  {
    var files' := files + [[]];
    if files != [] {
      assert files'[0] == files[0] && files'[1..] == files[1..] + [[]];
      FlatNew(files[1..]);
    } else {
      assert files' == [[]] && files'[1..] == [];
    }
  }

  lemma SetupKeeps(fs: Fs, f: nat, pos: nat)
    requires Partition(fs) && f < |fs.files| && Setup(fs, f, pos).Some?
    ensures SameBlocks(fs, Setup(fs, f, pos).value) && Partition(Setup(fs, f, pos).value)
  {
    hide AllI, AllD, AddData;
    var k, e := BlockOf(pos), EntryOf(pos);
    var g := Grown(fs, f, k + 1);
    GrownKeeps(fs, f, k + 1);
    SamePartition(fs, g);
    if g.files[f][k].dba[e] == LF_DNULL {
      FreeNotNull(g);
      AddDataKeeps(g, f, k, e);
      SamePartition(g, AddData(g, f, k, e));
    }
  }

  lemma FreeNotNull(fs: Fs)
    requires Partition(fs)
    ensures fs.dfree != [] ==> fs.dfree[0] != LF_DNULL
  {
    if fs.dfree != [] { assert fs.dfree[0] in AllD(fs); }
  }

  // Runs

  datatype Event = SetUp(file: nat, pos: nat) | Truncate(file: nat) | Create

  /** No panic. */
  predicate Enabled(fs: Fs, e: Event) {
    match e
    case SetUp(f, pos) => f < |fs.files| && Setup(fs, f, pos).Some?
    case Truncate(f) => f < |fs.files|
    case Create => true
  }

  function Step(fs: Fs, e: Event): Fs
    requires Enabled(fs, e)
  {
    match e
    case SetUp(f, pos) => Setup(fs, f, pos).value
    case Truncate(f) => Truncated(fs, f)
    case Create => NewFile(fs)
  }

  predicate Runs(fs: Fs, es: seq<Event>)
    decreases |es|
  {
    es == [] || (Enabled(fs, es[0]) && Runs(Step(fs, es[0]), es[1..]))
  }

  function Exec(fs: Fs, es: seq<Event>): Fs
    requires Runs(fs, es)
    decreases |es|
  {
    if es == [] then fs else Exec(Step(fs, es[0]), es[1..])
  }

  /** Over every run each index block is free or on exactly one chain, each data block is free or referenced exactly
      once, and none is lost. */
  lemma {:induction false} RunPartition(fs: Fs, es: seq<Event>)
    requires Partition(fs) && Runs(fs, es)
    ensures Partition(Exec(fs, es)) && SameBlocks(fs, Exec(fs, es))
    decreases |es|
  {
    hide AllI, AllD, Setup, Truncated, NewFile, Partition;
    if es != [] {
      var e, fs1 := es[0], Step(fs, es[0]);
      match e {
        case SetUp(f, pos) => SetupKeeps(fs, f, pos);
        case Truncate(f) => TruncatedKeeps(fs, f);
        case Create => NewFileKeeps(fs);
      }
      SamePartition(fs, fs1);
      RunPartition(fs1, es[1..]);
    }
  }

  lemma NewFileKeeps(fs: Fs)
    ensures SameBlocks(fs, NewFile(fs))
  {
    FlatNew(fs.files);
  }

  // What a setup does to the chain

  function Fresh(l: seq<int>, m: nat): (r: seq<FBlk>)
    requires m <= |l|
    ensures |r| == m && forall j :: 0 <= j < m ==> r[j] == FBlk(l[j], NoData())
  {
    if m == 0 then [] else [FBlk(l[0], NoData())] + Fresh(l[1..], m - 1)
  }

  function Taken(fs: Fs, f: nat, n: nat): (m: nat)
    requires f < |fs.files|
    ensures m <= |fs.ifree|
  {
    var need := n - |fs.files[f]|;
    if need <= 0 then 0 else if need <= |fs.ifree| then need else |fs.ifree|
  }

  /** The chain of f extended by the first free index blocks, in order. */
  function Extended(fs: Fs, f: nat, m: nat): Fs
    requires f < |fs.files| && m <= |fs.ifree|
  {
    WithFile(fs, f, fs.files[f] + Fresh(fs.ifree, m)).(ifree := fs.ifree[m..])
  }

  lemma ExtendedStep(fs: Fs, f: nat, m: nat)
    requires f < |fs.files| && 0 < m <= |fs.ifree|
    ensures Extended(AddBlock(fs, f), f, m - 1) == Extended(fs, f, m)
  {
    var bs, b, c := fs.files[f], FBlk(fs.ifree[0], NoData()), Fresh(fs.ifree[1..], m - 1);
    assert Fresh(fs.ifree, m) == [b] + c;
    hide Fresh, NoData;
    assert fs.ifree[1..][m - 1..] == fs.ifree[m..];
    assert (bs + [b]) + c == bs + ([b] + c);
  }

  /** Growing appends as many index blocks as are needed, or all that are free, and touches nothing else. */
  lemma {:induction false} GrownIs(fs: Fs, f: nat, n: nat)
    requires f < |fs.files|
    ensures Grown(fs, f, n) == Extended(fs, f, Taken(fs, f, n))
    decreases n - |fs.files[f]|
  {
    if |fs.files[f]| < n && fs.ifree != [] {
      GrownIs(AddBlock(fs, f), f, n);
      hide Extended;
      ExtendedStep(fs, f, Taken(fs, f, n));
    } else {
      assert fs.files[f] + [] == fs.files[f];
    }
  }

  /** A setup panics exactly when the free index blocks do not reach up to the position, or when the entry for the
      position is missing or null and no data block is free. */
  lemma PanicsIff(fs: Fs, f: nat, pos: nat)
    requires f < |fs.files|
    ensures var bs, k, e := fs.files[f], BlockOf(pos), EntryOf(pos);
            Setup(fs, f, pos) == None <==>
              || |bs| + |fs.ifree| <= k
              || (fs.dfree == [] && (|bs| <= k || bs[k].dba[e] == LF_DNULL))
  {
    GrownIs(fs, f, BlockOf(pos) + 1);
  }

  /** After a setup the chain covers the position; the blocks that were there are the same, but for the entry of the
      position if it was null; other files are the same. A second setup of the same position changes nothing. */
  lemma SetupCovers(fs: Fs, f: nat, pos: nat)
    requires Partition(fs) && f < |fs.files| && Setup(fs, f, pos).Some?
    ensures var fs', bs, k, e := Setup(fs, f, pos).value, fs.files[f], BlockOf(pos), EntryOf(pos);
            && |fs'.files| == |fs.files| && fs'.files == fs.files[f := fs'.files[f]]
            && k < |fs'.files[f]| && fs'.files[f][k].dba[e] != LF_DNULL
            && (forall j :: 0 <= j < |bs| && j != k ==> fs'.files[f][j] == bs[j])
            && (k < |bs| ==> fs'.files[f][k].id == bs[k].id)
            && (k < |bs| ==> forall i :: 0 <= i < LF_IBLEN && (i != e || bs[k].dba[i] != LF_DNULL) ==>
                  fs'.files[f][k].dba[i] == bs[k].dba[i])
            && Setup(fs', f, pos) == Some(fs')
  {
    hide Extended, NoData, Partition, Grown, BlockOf, EntryOf, AddData, Taken;
    var k, e := BlockOf(pos), EntryOf(pos);
    GrownIs(fs, f, k + 1);
    FreeNotNull(fs);
    var g := Grown(fs, f, k + 1);
    ExtendedChain(fs, f, Taken(fs, f, k + 1));
    if g.files[f][k].dba[e] == LF_DNULL {
      AddedEntry(g, f, k, e);
    }
    SetupIdle(Setup(fs, f, pos).value, f, pos);
  }

  lemma SetupIdle(fs: Fs, f: nat, pos: nat)
    requires f < |fs.files| && BlockOf(pos) < |fs.files[f]|
    requires fs.files[f][BlockOf(pos)].dba[EntryOf(pos)] != LF_DNULL
    ensures Setup(fs, f, pos) == Some(fs)
  {
  }

  lemma ExtendedChain(fs: Fs, f: nat, m: nat)
    requires f < |fs.files| && m <= |fs.ifree|
    ensures var g := Extended(fs, f, m);
            && |g.files| == |fs.files| && g.files == fs.files[f := g.files[f]] && g.dfree == fs.dfree
            && |g.files[f]| == |fs.files[f]| + m && forall j :: 0 <= j < |fs.files[f]| ==> g.files[f][j] == fs.files[f][j]
  {
  }

  lemma AddedEntry(g: Fs, f: nat, k: nat, e: nat)
    requires f < |g.files| && k < |g.files[f]| && e < LF_IBLEN && g.dfree != []
    ensures var g' := AddData(g, f, k, e); |g'.files| == |g.files| && g'.files == g.files[f := g'.files[f]]
    ensures var bs, bs' := g.files[f], AddData(g, f, k, e).files[f];
            && |bs'| == |bs| && (forall j :: 0 <= j < |bs| && j != k ==> bs'[j] == bs[j])
            && bs'[k].id == bs[k].id && bs'[k].dba[e] == g.dfree[0]
            && forall i :: 0 <= i < LF_IBLEN && i != e ==> bs'[k].dba[i] == bs[k].dba[i]
  {
  }

  /** After a truncation the index blocks of the file are handed out again first, in order, and its last data block
      first. */
  lemma TruncateThenSetup(fs: Fs, f: nat)
    requires Partition(fs) && f < |fs.files| && fs.files[f] != [] && Data(fs.files[f]) != []
    ensures Setup(Truncated(fs, f), f, 0).Some?
    ensures var bs, d := fs.files[f], Data(fs.files[f]);
            var fs' := Setup(Truncated(fs, f), f, 0).value;
            fs'.files[f] == [FBlk(bs[0].id, NoData()[0 := d[|d| - 1]])]
  {
    var t := Truncated(fs, f);
    GrownIs(t, f, 1);
    assert BlockOf(0) == 0 && EntryOf(0) == 0;
    assert t.ifree[0] == fs.files[f][0].id;
    assert t.dfree[0] == Data(fs.files[f])[|Data(fs.files[f])| - 1];
  }
}
