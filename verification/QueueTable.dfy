/** The global array `queuetab` and the operations on it (Chapter 4 and Chapter13/insertd.c). */
module QueueTable {
  import opened Types
  import opened Lists
  import opened Queue

  class QueueTab {
    const nproc: nat
    const nqent: nat
    const queuetab: array<QEntry>
    const proctab: array<Proc>
    var nextqid: int

    // Abstraction: the processes of every allocated queue, and the key of every process.
    ghost var lists: map<int, seq<int>>
    ghost var keys: seq<int>

    ghost predicate Valid()
      reads this, queuetab
    {
      && queuetab.Length == nqent && proctab.Length == nproc
      && nproc <= nextqid <= nqent && (nextqid - nproc) % 2 == 0
      && (forall q :: q in lists <==> nproc <= q < nextqid && (q - nproc) % 2 == 0)
      && TableOk(queuetab[..], nproc, lists, keys)
    }

    constructor (nproc: nat, nqent: nat, proctab: array<Proc>)
      requires nproc <= nqent && proctab.Length == nproc
      ensures Valid() && fresh(queuetab)
      ensures this.nproc == nproc && this.nqent == nqent && this.proctab == proctab
      ensures lists == map[] && nextqid == nproc
    {
      this.nproc, this.nqent, this.proctab := nproc, nqent, proctab;
      queuetab := new QEntry[nqent](_ => QEntry(0, 0, 0));
      nextqid := nproc;
      lists := map[];
      keys := seq(nproc, _ => 0);
    }

    predicate IsBadQid(q: int) {
      q < 0 || q >= nqent - 1
    }

    predicate IsBadPid(pid: int)
      requires proctab.Length == nproc
      reads proctab
    {
      pid < 0 || pid >= nproc || proctab[pid].prstate == PR_FREE
    }

    /** Allocates an empty queue. The source's guard admits one queue too many: room is the caller's duty. */
    method NewQueue() returns (qid: int)
      requires Valid() && nextqid + 2 <= nqent
      modifies this`nextqid, this`lists, queuetab
      ensures Valid() && qid == old(nextqid) && nextqid == qid + 2
      ensures qid !in old(lists) && lists == old(lists)[qid := []] && keys == old(keys)
    {
      ghost var t := queuetab[..];
      qid := nextqid;
      if qid > nqent {
        return -1;
      }
      nextqid := nextqid + 2;
      queuetab[qid] := QEntry(MAXKEY, qid + 1, EMPTY);
      queuetab[qid + 1] := QEntry(MINKEY, EMPTY, qid);
      TableNewQueue(t, queuetab[..], nproc, lists, keys, qid);
      lists := lists[qid := []];
    }

    predicate IsEmpty(q: int)
      requires 0 <= q < queuetab.Length
      reads queuetab
    {
      queuetab[q].qnext >= nproc
    }

    lemma FirstCell(q: int)
      requires Valid() && q in lists
      ensures 0 <= q && q + 1 < queuetab.Length
      ensures queuetab[q].qnext == Cell(q, lists[q], 1)
      ensures queuetab[q + 1].qprev == Cell(q, lists[q], |lists[q]|)
      ensures IsEmpty(q) <==> lists[q] == []
    {
      assert Linked(queuetab[..], nproc, q, lists[q]);
      assert Adjacent(queuetab[..], Cell(q, lists[q], 0), Cell(q, lists[q], 1));
      assert Adjacent(queuetab[..], Cell(q, lists[q], |lists[q]|), Cell(q, lists[q], |lists[q]| + 1));
    }

    lemma NextCell(q: int, i: nat)
      requires Valid() && q in lists && i <= |lists[q]|
      ensures 0 <= Cell(q, lists[q], i) < queuetab.Length && 0 <= Cell(q, lists[q], i + 1) < queuetab.Length
      ensures queuetab[Cell(q, lists[q], i)].qnext == Cell(q, lists[q], i + 1)
      ensures queuetab[Cell(q, lists[q], i + 1)].qprev == Cell(q, lists[q], i)
      ensures 1 <= i ==> 0 <= lists[q][i - 1] < nproc && queuetab[lists[q][i - 1]].qkey == keys[lists[q][i - 1]]
      ensures Pids(lists[q], |keys|)
      ensures queuetab[q + 1].qkey == MINKEY
      ensures 0 <= q < q + 1 < queuetab.Length && nproc <= q
    {
      assert Linked(queuetab[..], nproc, q, lists[q]);
      assert Adjacent(queuetab[..], Cell(q, lists[q], i), Cell(q, lists[q], i + 1));
    }

    method Enqueue(pid: int, qid: int) returns (r: int)
      requires Valid()
      requires IsBadQid(qid) || IsBadPid(pid) || (qid in lists && !Queued(lists, pid))
      modifies this`lists, queuetab
      ensures Valid() && keys == old(keys)
      ensures r == if IsBadQid(qid) || IsBadPid(pid) then -1 else pid
      ensures lists == if r == -1 then old(lists) else old(lists)[qid := old(lists)[qid] + [pid]]
    {
      if IsBadQid(qid) || IsBadPid(pid) {
        return -1;
      }
      ghost var t, l := queuetab[..], lists[qid];
      NextCell(qid, |l|);
      var tail := qid + 1;
      var prev := queuetab[tail].qprev;
      queuetab[pid] := queuetab[pid].(qnext := tail, qprev := prev);
      queuetab[prev] := queuetab[prev].(qnext := pid);
      queuetab[tail] := queuetab[tail].(qprev := pid);
      TableLinkIn(t, queuetab[..], nproc, lists, keys, qid, |l|, pid, t[pid].qkey);
      assert InsertAt(l, |l|, pid) == l + [pid];
      assert keys[pid := t[pid].qkey] == keys;
      lists := lists[qid := l + [pid]];
      return pid;
    }

    // The cell before which an entry of the given key belongs.
    method FindPrio(qid: int, key: int32) returns (curr: int, ghost i: nat)
      requires Valid() && key > MINKEY && qid in lists
      ensures Pids(lists[qid], |keys|) && i == PrioIndex(lists[qid], keys, key) && curr == Cell(qid, lists[qid], i + 1)
      ensures 0 <= curr < queuetab.Length && queuetab[curr].qprev == Cell(qid, lists[qid], i)
    {
      ghost var l := lists[qid];
      i := 0;
      NextCell(qid, 0);
      curr := queuetab[qid].qnext;
      assert l[0..] == l;
      while queuetab[curr].qkey >= key
        invariant 0 <= i <= |l| && curr == Cell(qid, l, i + 1) && 0 <= curr < queuetab.Length
        invariant queuetab[curr].qprev == Cell(qid, l, i)
        invariant PrioIndex(l, keys, key) == i + PrioIndex(l[i..], keys, key)
        decreases |l| - i
      {
        NextCell(qid, i + 1);
        assert l[i..][1..] == l[i + 1..];
        curr := queuetab[curr].qnext;
        i := i + 1;
      }
      if i < |l| {
        NextCell(qid, i + 1);
      }
    }

    // Splices a process between two neighbouring cells of queue q.
    method Splice(pid: int, prev: int, next: int, key: int32, ghost q: int, ghost i: nat)
      requires Valid() && q in lists && 0 <= pid < nproc && !Queued(lists, pid) && i <= |lists[q]|
      requires prev == Cell(q, lists[q], i) && next == Cell(q, lists[q], i + 1)
      modifies this`lists, this`keys, queuetab
      ensures Valid()
      ensures lists == old(lists)[q := InsertAt(old(lists[q]), i, pid)]
      ensures keys == old(keys)[pid := key]
    {
      ghost var t, l := queuetab[..], lists[q];
      NextCell(q, i);
      queuetab[pid] := QEntry(key, next, prev);
      queuetab[prev] := queuetab[prev].(qnext := pid);
      queuetab[next] := queuetab[next].(qprev := pid);
      TableLinkIn(t, queuetab[..], nproc, lists, keys, q, i, pid, key);
      lists, keys := lists[q := InsertAt(l, i, pid)], keys[pid := key];
    }

    method Insert(pid: int, qid: int, key: int32) returns (status: Status)
      requires Valid() && key > MINKEY
      requires IsBadQid(qid) || IsBadPid(pid) || (qid in lists && !Queued(lists, pid))
      modifies this`lists, this`keys, queuetab
      ensures Valid()
      ensures status == if IsBadQid(qid) || IsBadPid(pid) then SYSERR else OK
      ensures status == SYSERR ==> lists == old(lists) && keys == old(keys)
      ensures status == OK ==>
        && Pids(old(lists[qid]), |old(keys)|)
        && lists == old(lists)[qid := InsertAt(old(lists[qid]), PrioIndex(old(lists[qid]), old(keys), key), pid)]
        && keys == old(keys)[pid := key]
    {
      if IsBadQid(qid) || IsBadPid(pid) {
        return SYSERR;
      }
      var curr, i := FindPrio(qid, key);
      Splice(pid, queuetab[curr].qprev, curr, key, qid, i);
      return OK;
    }

    /** Unlinks a process from whatever queue holds it. */
    method GetItem(pid: int, ghost q: int) returns (r: int)
      requires Valid() && q in lists && pid in lists[q]
      modifies this`lists, queuetab
      ensures Valid() && keys == old(keys) && r == pid
      ensures lists == old(lists)[q := Without(old(lists)[q], pid)]
      ensures !Queued(lists, pid)
    {
      ghost var t, l := queuetab[..], lists[q];
      ghost var i := IndexOf(l, pid);
      NextCell(q, i);
      NextCell(q, i + 1);
      CellsDistinct(t, nproc, q, l, i, i + 2);
      var next := queuetab[pid].qnext;
      var prev := queuetab[pid].qprev;
      queuetab[prev] := queuetab[prev].(qnext := next);
      queuetab[next] := queuetab[next].(qprev := prev);
      TableLinkOut(t, queuetab[..], nproc, lists, keys, q, i);
      WithoutMembers(l, pid);
      lists := lists[q := RemoveAt(l, i)];
      return pid;
    }

    method GetFirst(q: int) returns (pid: int)
      requires Valid() && q in lists
      modifies this`lists, queuetab
      ensures Valid() && keys == old(keys)
      ensures old(lists)[q] == [] ==> pid == EMPTY && lists == old(lists)
      ensures old(lists)[q] != [] ==> pid == old(lists)[q][0] && lists == old(lists)[q := old(lists)[q][1..]]
      ensures !Queued(lists, pid)
    {
      FirstCell(q);
      if IsEmpty(q) {
        assert !Queued(lists, EMPTY) by {
          forall r | r in lists ensures EMPTY !in lists[r] { NextCell(r, 0); }
        }
        return EMPTY;
      }
      WithoutHead(lists[q]);
      pid := GetItem(queuetab[q].qnext, q);
    }

    method GetLast(q: int) returns (pid: int)
      requires Valid() && q in lists
      modifies this`lists, queuetab
      ensures Valid() && keys == old(keys)
      ensures old(lists)[q] == [] ==> pid == EMPTY && lists == old(lists)
      ensures old(lists)[q] != [] ==>
        var l := old(lists)[q]; pid == l[|l| - 1] && lists == old(lists)[q := l[..|l| - 1]]
    {
      FirstCell(q);
      if IsEmpty(q) {
        return EMPTY;
      }
      ghost var l := lists[q];
      NextCell(q, |l|);
      assert Linked(queuetab[..], nproc, q, l);
      assert IndexOf(l, l[|l| - 1]) == |l| - 1;
      assert Without(l, l[|l| - 1]) == l[..|l| - 1];
      pid := GetItem(queuetab[q + 1].qprev, q);
    }

    method Dequeue(q: int) returns (pid: int)
      requires Valid() && q in lists
      modifies this`lists, queuetab
      ensures Valid() && keys == old(keys)
      ensures old(lists)[q] == [] ==> pid == EMPTY && lists == old(lists)
      ensures old(lists)[q] != [] ==> pid == old(lists)[q][0] && lists == old(lists)[q := old(lists)[q][1..]]
      ensures !Queued(lists, pid)
    {
      FirstCell(q);
      if IsBadQid(q) {
        return -1;
      } else if IsEmpty(q) {
        pid := GetFirst(q);
        return EMPTY;
      }
      NextCell(q, 1);
      pid := GetFirst(q);
      ghost var t := queuetab[..];
      queuetab[pid] := queuetab[pid].(qprev := EMPTY, qnext := EMPTY);
      forall r | r in lists
        ensures Linked(queuetab[..], nproc, r, lists[r])
      {
        assert Linked(t, nproc, r, lists[r]);
        LinkedFrame(t, queuetab[..], nproc, r, lists[r]);
      }
    }

    /** Adds d to the key of a process, in place. */
    method AddKey(pid: int, d: int)
      requires Valid() && 0 <= pid < nproc && INT32_MIN <= keys[pid] + d <= INT32_MAX
      modifies this`keys, queuetab
      ensures Valid() && keys == old(keys)[pid := old(keys)[pid] + d]
    {
      ghost var t := queuetab[..];
      queuetab[pid] := queuetab[pid].(qkey := queuetab[pid].qkey + d);
      keys := keys[pid := keys[pid] + d];
      forall r | r in lists
        ensures Linked(queuetab[..], nproc, r, lists[r])
      {
        assert Linked(t, nproc, r, lists[r]);
        LinkedFrame(t, queuetab[..], nproc, r, lists[r]);
      }
    }

    // The cells between which an entry of the given delay belongs, and what is left of the delay there.
    method FindDelta(q: int, delay: int32) returns (prev: int, next: int, key: int32, ghost i: nat)
      requires Valid() && 0 <= delay && q in lists
      requires forall p :: p in lists[q] && 0 <= p < nproc ==> 0 <= keys[p]
      ensures Pids(lists[q], |keys|) && i == DeltaIndex(lists[q], keys, delay)
      ensures prev == Cell(q, lists[q], i) && next == Cell(q, lists[q], i + 1)
      ensures 0 <= key <= delay && key == delay - Sum(lists[q], keys, i)
      ensures i < |lists[q]| ==> key < keys[lists[q][i]]
    {
      ghost var l := lists[q];
      i := 0;
      NextCell(q, 0);
      key := delay;
      prev := q;
      next := queuetab[q].qnext;
      assert l[0..] == l;
      while next != q + 1 && queuetab[next].qkey <= key
        invariant 0 <= i <= |l| && prev == Cell(q, l, i) && next == Cell(q, l, i + 1)
        invariant 0 <= next < queuetab.Length && 0 <= key <= delay
        invariant key == delay - Sum(l, keys, i)
        invariant DeltaIndex(l, keys, delay) == i + DeltaIndex(l[i..], keys, key)
        decreases |l| - i
      {
        NextCell(q, i + 1);
        assert l[i] in l;
        assert l[i..][1..] == l[i + 1..];
        key := key - queuetab[next].qkey;
        prev := next;
        next := queuetab[next].qnext;
        i := i + 1;
      }
      if i < |l| {
        NextCell(q, i + 1);
      }
    }

    /** Inserts a process into a delta list after every entry that is due no later. */
    method InsertD(pid: int, q: int, delay: int32) returns (status: Status)
      requires Valid() && 0 <= delay
      requires IsBadQid(q) || IsBadPid(pid) || (q in lists && !Queued(lists, pid))
      requires q in lists ==> forall p :: p in lists[q] && 0 <= p < nproc ==> 0 <= keys[p]
      modifies this`lists, this`keys, queuetab
      ensures Valid()
      ensures status == if IsBadQid(q) || IsBadPid(pid) then SYSERR else OK
      ensures status == SYSERR ==> lists == old(lists) && keys == old(keys)
      ensures status == OK ==>
        && Pids(old(lists[q]), |old(keys)|) && 0 <= pid < |old(keys)|
        && lists == old(lists)[q := InsertAt(old(lists[q]), DeltaIndex(old(lists[q]), old(keys), delay), pid)]
        && keys == DeltaKeys(old(lists[q]), old(keys), pid, delay)
    {
      if IsBadQid(q) || IsBadPid(pid) {
        return SYSERR;
      }
      ghost var l := lists[q];
      var prev, next, key, i := FindDelta(q, delay);
      NextCell(q, i);
      Splice(pid, prev, next, key, q, i);
      if next != q + 1 {
        assert next == l[i] && l[i] in l;
        AddKey(next, -key);
      }
      return OK;
    }
  }
}
