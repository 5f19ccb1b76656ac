/** The queue table (Chapter 4): many doubly linked lists threaded through one array. */
module Queue {
  import opened Types
  import opened Lists

  datatype QEntry = QEntry(qkey: int32, qnext: int, qprev: int)

  /** The i-th cell of a queue: its head sentinel, then its processes, then its tail sentinel. */
  function Cell(q: int, l: seq<int>, i: int): int {
    if i <= 0 then q else if i <= |l| then l[i - 1] else q + 1
  }

  ghost predicate Adjacent(t: seq<QEntry>, a: int, b: int) {
    0 <= a < |t| && 0 <= b < |t| && t[a].qnext == b && t[b].qprev == a
  }

  /** Queue q of table t holds exactly the processes l, in both directions. */
  ghost predicate Linked(t: seq<QEntry>, n: nat, q: int, l: seq<int>) {
    && n <= q && q + 1 < |t| && (q - n) % 2 == 0
    && t[q].qkey == MAXKEY && t[q + 1].qkey == MINKEY
    && NoDup(l)
    && Pids(l, n)
    && (forall i :: 0 <= i <= |l| ==> Adjacent(t, Cell(q, l, i), Cell(q, l, i + 1)))
  }

  ghost predicate Apart(lists: map<int, seq<int>>) {
    forall q, r, p :: q in lists && r in lists && q != r && p in lists[q] ==> p !in lists[r]
  }

  ghost predicate KeysOf(t: seq<QEntry>, n: nat, keys: seq<int>) {
    |keys| == n <= |t| && forall p :: 0 <= p < n ==> t[p].qkey == keys[p]
  }

  ghost predicate TableOk(t: seq<QEntry>, n: nat, lists: map<int, seq<int>>, keys: seq<int>) {
    && KeysOf(t, n, keys)
    && Apart(lists)
    && forall q :: q in lists ==> Linked(t, n, q, lists[q])
  }

  ghost predicate Queued(lists: map<int, seq<int>>, p: int) {
    exists q :: q in lists && p in lists[q]
  }

  /** How many entries stand before a new entry of the given priority: those not below it. */
  function PrioIndex(l: seq<int>, keys: seq<int>, key: int): (i: nat)
    requires Pids(l, |keys|)
    ensures i <= |l|
  {
    if l == [] || keys[l[0]] < key then 0 else 1 + PrioIndex(l[1..], keys, key)
  }

  /** How many entries of a delta list a new entry of the given delay passes. */
  function DeltaIndex(l: seq<int>, keys: seq<int>, key: int): (i: nat)
    requires Pids(l, |keys|)
    ensures i <= |l|
  {
    if l == [] || keys[l[0]] > key then 0 else 1 + DeltaIndex(l[1..], keys, key - keys[l[0]])
  }

  // The sum of the deltas of the first i entries: the deadline of entry i - 1.
  function Sum(l: seq<int>, keys: seq<int>, i: nat): int
    requires i <= |l|
    requires Pids(l, |keys|)
  {
    if i == 0 then 0 else Sum(l, keys, i - 1) + keys[l[i - 1]]
  }

  /** The keys after an entry p of delay key has been inserted: p holds what the entries before it leave of
      its delay, and the entry after it gives that much up. */
  function DeltaKeys(l: seq<int>, keys: seq<int>, p: int, key: int): (keys': seq<int>)
    requires Pids(l, |keys|) && 0 <= p < |keys|
    ensures |keys'| == |keys|
  {
    var i := DeltaIndex(l, keys, key);
    var rest := key - Sum(l, keys, i);
    var withEntry := keys[p := rest];
    if i < |l| then withEntry[l[i] := keys[l[i]] - rest] else withEntry
  }

  lemma CellsDistinct(t: seq<QEntry>, n: nat, q: int, l: seq<int>, i: int, j: int)
    requires Linked(t, n, q, l) && 0 <= i <= |l| + 1 && 0 <= j <= |l| + 1
    ensures Cell(q, l, i) == Cell(q, l, j) ==> i == j
  {
  }

  /** Splicing p between cells i and i + 1 of queue q. */
  lemma LinkIn(t: seq<QEntry>, u: seq<QEntry>, n: nat, q: int, l: seq<int>, i: nat, p: int)
    requires Linked(t, n, q, l) && i <= |l| && p !in l && 0 <= p < n && |u| == |t|
    requires forall x :: 0 <= x < |t| && x != p && x != Cell(q, l, i) ==> u[x].qnext == t[x].qnext
    requires forall x :: 0 <= x < |t| && x != p && x != Cell(q, l, i + 1) ==> u[x].qprev == t[x].qprev
    requires u[q].qkey == t[q].qkey && u[q + 1].qkey == t[q + 1].qkey
    requires Adjacent(u, Cell(q, l, i), p) && Adjacent(u, p, Cell(q, l, i + 1))
    ensures Linked(u, n, q, InsertAt(l, i, p))
  {
    var m := InsertAt(l, i, p);
    InsertMembers(l, i, p);
    InsertNoDup(l, i, p);
    forall j | 0 <= j <= |m|
      ensures Adjacent(u, Cell(q, m, j), Cell(q, m, j + 1))
    {
      if j < i {
        assert Cell(q, m, j) == Cell(q, l, j) && Cell(q, m, j + 1) == Cell(q, l, j + 1);
        assert Adjacent(t, Cell(q, l, j), Cell(q, l, j + 1));
        CellsDistinct(t, n, q, l, j, i);
        CellsDistinct(t, n, q, l, j + 1, i + 1);
      } else if j > i + 1 {
        assert Cell(q, m, j) == Cell(q, l, j - 1) && Cell(q, m, j + 1) == Cell(q, l, j);
        assert Adjacent(t, Cell(q, l, j - 1), Cell(q, l, j));
        CellsDistinct(t, n, q, l, j - 1, i);
        CellsDistinct(t, n, q, l, j, i + 1);
      } else {
        assert Cell(q, m, i) == Cell(q, l, i) && Cell(q, m, i + 1) == p && Cell(q, m, i + 2) == Cell(q, l, i + 1);
      }
    }
  }

  /** Unsplicing entry i of queue q. */
  lemma LinkOut(t: seq<QEntry>, u: seq<QEntry>, n: nat, q: int, l: seq<int>, i: nat)
    requires Linked(t, n, q, l) && i < |l| && |u| == |t|
    requires forall x :: 0 <= x < |t| && x != Cell(q, l, i) ==> u[x].qnext == t[x].qnext
    requires forall x :: 0 <= x < |t| && x != Cell(q, l, i + 2) ==> u[x].qprev == t[x].qprev
    requires u[q].qkey == t[q].qkey && u[q + 1].qkey == t[q + 1].qkey
    requires Adjacent(u, Cell(q, l, i), Cell(q, l, i + 2))
    ensures Linked(u, n, q, RemoveAt(l, i))
  {
    var m := RemoveAt(l, i);
    forall j | 0 <= j <= |m|
      ensures Adjacent(u, Cell(q, m, j), Cell(q, m, j + 1))
    {
      if j < i {
        assert Cell(q, m, j) == Cell(q, l, j) && Cell(q, m, j + 1) == Cell(q, l, j + 1);
        assert Adjacent(t, Cell(q, l, j), Cell(q, l, j + 1));
        CellsDistinct(t, n, q, l, j, i);
        CellsDistinct(t, n, q, l, j + 1, i + 2);
      } else if j > i {
        assert Cell(q, m, j) == Cell(q, l, j + 1) && Cell(q, m, j + 1) == Cell(q, l, j + 2);
        assert Adjacent(t, Cell(q, l, j + 1), Cell(q, l, j + 2));
        CellsDistinct(t, n, q, l, j + 1, i);
        CellsDistinct(t, n, q, l, j + 2, i + 2);
      } else {
        assert Cell(q, m, i) == Cell(q, l, i) && Cell(q, m, i + 1) == Cell(q, l, i + 2);
      }
    }
  }

  /** A queue is untouched by writes to links of cells outside it. */
  lemma LinkedFrame(t: seq<QEntry>, u: seq<QEntry>, n: nat, r: int, m: seq<int>)
    requires Linked(t, n, r, m) && |u| == |t|
    requires forall x {:trigger u[x]} :: x == r || x == r + 1 || x in m ==> u[x].qnext == t[x].qnext && u[x].qprev == t[x].qprev
    requires u[r].qkey == t[r].qkey && u[r + 1].qkey == t[r + 1].qkey
    ensures Linked(u, n, r, m)
  {
    forall i | 0 <= i <= |m|
      ensures Adjacent(u, Cell(r, m, i), Cell(r, m, i + 1))
    {
      assert Adjacent(t, Cell(r, m, i), Cell(r, m, i + 1));
    }
  }

  /** Splicing p into queue q keeps the whole table; only the key of p may change. */
  lemma TableLinkIn(t: seq<QEntry>, u: seq<QEntry>, n: nat, lists: map<int, seq<int>>, keys: seq<int>,
                    q: int, i: nat, p: int, key: int32)
    requires TableOk(t, n, lists, keys) && q in lists && i <= |lists[q]| && 0 <= p < n && !Queued(lists, p)
    requires |u| == |t|
    requires
      var a, b := Cell(q, lists[q], i), Cell(q, lists[q], i + 1);
      && 0 <= a < |t| && 0 <= b < |t|
      && u == t[p := QEntry(key, b, a)][a := t[a].(qnext := p)][b := t[b].(qprev := p)]
    ensures TableOk(u, n, lists[q := InsertAt(lists[q], i, p)], keys[p := key])
  {
    var l := lists[q];
    var lists' := lists[q := InsertAt(l, i, p)];
    InsertMembers(l, i, p);
    assert Adjacent(t, Cell(q, l, i), Cell(q, l, i + 1));
    assert p !in l;
    CellsDistinct(t, n, q, l, i, i + 1);
    LinkIn(t, u, n, q, l, i, p);
    forall r | r in lists' && r != q
      ensures Linked(u, n, r, lists'[r])
    {
      OtherQueue(t, n, lists, keys, q, r, i);
      OtherQueue(t, n, lists, keys, q, r, i + 1);
      assert p !in lists[r];
      LinkedFrame(t, u, n, r, lists[r]);
    }
    assert Linked(u, n, q, lists'[q]);
  }

  lemma OtherQueue(t: seq<QEntry>, n: nat, lists: map<int, seq<int>>, keys: seq<int>, q: int, r: int, i: int)
    requires TableOk(t, n, lists, keys) && q in lists && r in lists && q != r && 0 <= i <= |lists[q]| + 1
    ensures var c := Cell(q, lists[q], i); c != r && c != r + 1 && c !in lists[r]
  {
    assert Linked(t, n, q, lists[q]) && Linked(t, n, r, lists[r]);
    var c := Cell(q, lists[q], i);
    if 1 <= i <= |lists[q]| {
      assert c in lists[q];
    }
  }

  /** Unsplicing entry i of queue q keeps the whole table. */
  lemma TableLinkOut(t: seq<QEntry>, u: seq<QEntry>, n: nat, lists: map<int, seq<int>>, keys: seq<int>, q: int, i: nat)
    requires TableOk(t, n, lists, keys) && q in lists && i < |lists[q]| && |u| == |t|
    requires
      var a, b := Cell(q, lists[q], i), Cell(q, lists[q], i + 2);
      && 0 <= a < |t| && 0 <= b < |t| && a != b
      && u == t[a := t[a].(qnext := b)][b := t[b].(qprev := a)]
    ensures TableOk(u, n, lists[q := RemoveAt(lists[q], i)], keys)
  {
    var l := lists[q];
    var lists' := lists[q := RemoveAt(l, i)];
    LinkOut(t, u, n, q, l, i);
    forall r | r in lists' && r != q
      ensures Linked(u, n, r, lists'[r])
    {
      OtherQueue(t, n, lists, keys, q, r, i);
      OtherQueue(t, n, lists, keys, q, r, i + 2);
      LinkedFrame(t, u, n, r, lists[r]);
    }
    assert Linked(u, n, q, lists'[q]);
    assert forall x :: x in RemoveAt(l, i) ==> x in l;
  }

  /** Two fresh sentinel cells make a new empty queue. */
  lemma TableNewQueue(t: seq<QEntry>, u: seq<QEntry>, n: nat, lists: map<int, seq<int>>, keys: seq<int>, q: int)
    requires TableOk(t, n, lists, keys) && n <= q && q + 1 < |t| && (q - n) % 2 == 0
    requires forall r :: r in lists ==> r < q
    requires u == t[q := QEntry(MAXKEY, q + 1, EMPTY)][q + 1 := QEntry(MINKEY, EMPTY, q)]
    ensures TableOk(u, n, lists[q := []], keys)
  {
    forall r | r in lists
      ensures Linked(u, n, r, lists[r])
    {
      LinkedFrame(t, u, n, r, lists[r]);
    }
    assert Linked(u, n, q, []);
  }
}
