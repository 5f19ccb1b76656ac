/** The disk of the local file system (Chapter19/lfilesys.h): seven index blocks to a sector, and the lists that are
    stored in the blocks themselves. */
module FsDisk {

  // Sizes in 32-bit words: a sector of 512 bytes, an index block of 72 bytes.
  const SECTOR_WORDS := 128
  const IB_WORDS := 18
  const IB_PER_SECTOR := 7

  const LF_IBLEN := 16
  const LF_IDATA := 8192
  const LF_BLKSIZ := 512
  const LF_AREA_IB := 1
  const LF_NUM_DIR_ENT := 20
  const LF_INULL := -1
  const LF_DNULL := -1

  type Sector = s: seq<int> | |s| == SECTOR_WORDS witness seq(SECTOR_WORDS, _ => 0)

  type Dba = s: seq<int> | |s| == LF_IBLEN witness seq(LF_IBLEN, _ => LF_DNULL)

  datatype Iblk = Iblk(next: int, offset: int, dba: Dba)

  /** An index block without data blocks (`lfibclear`). */
  function NoData(): Dba {
    seq(LF_IBLEN, _ => LF_DNULL)
  }

  function Cleared(offset: int): Iblk {
    Iblk(LF_INULL, offset, NoData())
  }

  function Ib2Sect(ib: nat): nat {
    ib / IB_PER_SECTOR + LF_AREA_IB
  }

  function Ib2Disp(ib: nat): (d: nat)
    ensures d + IB_WORDS <= SECTOR_WORDS
  {
    ib % IB_PER_SECTOR * IB_WORDS
  }

  /** Index block ib lies on the disk. */
  predicate OnDisk(disk: seq<Sector>, ib: int) {
    ib >= 0 && Ib2Sect(ib) < |disk|
  }

  function Words(b: Iblk): (w: seq<int>)
    ensures |w| == IB_WORDS
  {
    [b.next, b.offset] + b.dba
  }

  function FromWords(w: seq<int>): Iblk
    requires |w| == IB_WORDS
  {
    Iblk(w[0], w[1], w[2..])
  }

  function IbAt(disk: seq<Sector>, ib: nat): Iblk
    requires OnDisk(disk, ib)
  {
    FromWords(disk[Ib2Sect(ib)][Ib2Disp(ib)..Ib2Disp(ib) + IB_WORDS])
  }

  function Spliced(s: Sector, d: nat, w: seq<int>): Sector
    requires |w| == IB_WORDS && d + IB_WORDS <= SECTOR_WORDS
  {
    s[..d] + w + s[d + IB_WORDS..]
  }

  function PutIb(disk: seq<Sector>, ib: nat, b: Iblk): seq<Sector>
    requires OnDisk(disk, ib)
  {
    disk[Ib2Sect(ib) := Spliced(disk[Ib2Sect(ib)], Ib2Disp(ib), Words(b))]
  }

  /** `lfibput`: a block that is not on the disk is not written. */
  function StoreIb(disk: seq<Sector>, ib: int, b: Iblk): seq<Sector> {
    if OnDisk(disk, ib) then PutIb(disk, ib, b) else disk
  }

  lemma WordsBack(b: Iblk)
    ensures FromWords(Words(b)) == b
  {
    assert Words(b)[2..] == b.dba;
  }

  /** Two different index blocks do not share a word of the disk. */
  lemma DistinctPlaces(i: nat, j: nat)
    requires i != j
    ensures Ib2Sect(i) != Ib2Sect(j) || Ib2Disp(i) + IB_WORDS <= Ib2Disp(j) || Ib2Disp(j) + IB_WORDS <= Ib2Disp(i)
  {
    if Ib2Sect(i) == Ib2Sect(j) {
      assert i % IB_PER_SECTOR != j % IB_PER_SECTOR;
    }
  }

  lemma SplicedSlice(s: Sector, d: nat, w: seq<int>, e: nat)
    requires |w| == IB_WORDS && d + IB_WORDS <= SECTOR_WORDS && e + IB_WORDS <= SECTOR_WORDS
    requires d + IB_WORDS <= e || e + IB_WORDS <= d
    ensures Spliced(s, d, w)[e..e + IB_WORDS] == s[e..e + IB_WORDS]
  {
  }

  /** What is put is read back; the other blocks, also those of the same sector, and the other sectors stay. */
  lemma PutGet(disk: seq<Sector>, i: nat, b: Iblk, j: nat)
    requires OnDisk(disk, i) && OnDisk(disk, j)
    ensures IbAt(PutIb(disk, i, b), j) == if j == i then b else IbAt(disk, j)
  {
    var s, d := disk[Ib2Sect(i)], Ib2Disp(i);
    if i == j {
      assert Spliced(s, d, Words(b))[d..d + IB_WORDS] == Words(b);
      WordsBack(b);
    } else if Ib2Sect(i) == Ib2Sect(j) {
      DistinctPlaces(i, j);
      SplicedSlice(s, d, Words(b), Ib2Disp(j));
    }
  }

  // Free data blocks: the first word of each is the number of the next.

  function NextDb(disk: seq<Sector>, d: nat): int
    requires d < |disk|
  {
    disk[d][0]
  }

  function LinkSector(next: int): Sector {
    [next] + seq(SECTOR_WORDS - 1, _ => 0)
  }

  /** An assumption about the disk: a write to a sector that it does not have, such as block -1, changes nothing. */
  function WriteAt(disk: seq<Sector>, n: int, s: Sector): seq<Sector> {
    if 0 <= n < |disk| then disk[n := s] else disk
  }
}
