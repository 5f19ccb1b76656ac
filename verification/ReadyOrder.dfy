/** The order of the ready list (Chapters 4 and 5): nobody overtakes another process of its priority. */
module ReadyOrder {
  import opened Types
  import opened Lists
  import opened Queue
  import opened Delta
  import opened KernelState
  import opened KernelInv

  /** p stands before q in list l. */
  ghost predicate Before(l: seq<int>, p: int, q: int) {
    p in l && q in l && IndexOf(l, p) < IndexOf(l, q)
  }

  ghost predicate Tied(procs: seq<Proc>, q: int, x: int) {
    0 <= q < |procs| && 0 <= x < |procs| && procs[q].prprio == procs[x].prprio
  }

  /** List m goes on from list l: nobody overtakes, and newcomers stand behind everybody of their priority. */
  ghost predicate InLine(l: seq<int>, m: seq<int>, procs: seq<Proc>) {
    && (forall p, q :: Before(l, p, q) && p in m && q in m ==> Before(m, p, q))
    && (forall q, x :: q in l && q in m && x in m && x !in l && Tied(procs, q, x) ==> Before(m, q, x))
  }

  lemma IndexIs(l: seq<int>, i: nat)
    requires NoDup(l) && i < |l|
    ensures IndexOf(l, l[i]) == i
  {
  }

  lemma InsertIndex(l: seq<int>, i: nat, x: int, p: int)
    requires NoDup(l) && i <= |l| && x !in l && p in l
    ensures var m := InsertAt(l, i, x);
            && NoDup(m) && p in m && x in m && IndexOf(m, x) == i
            && IndexOf(m, p) == IndexOf(l, p) + if IndexOf(l, p) < i then 0 else 1
  {
    var m, j := InsertAt(l, i, x), IndexOf(l, p);
    InsertNoDup(l, i, x);
    InsertMembers(l, i, x);
    InsertEntry(l, i, x, i);
    InsertEntry(l, i, x, if j < i then j else j + 1);
    IndexIs(m, i);
    IndexIs(m, if j < i then j else j + 1);
  }

  lemma InsertInLine(l: seq<int>, m: seq<int>, i: nat, x: int, procs: seq<Proc>)
    requires InLine(l, m, procs) && NoDup(m) && i <= |m| && x !in m && x !in l && Pids(m, |procs|) && 0 <= x < |procs|
    requires forall q :: q in m && Tied(procs, q, x) ==> IndexOf(m, q) < i
    ensures InLine(l, InsertAt(m, i, x), procs)
  {
    hide InsertAt, IndexOf;
    var m' := InsertAt(m, i, x);
    InsertMembers(m, i, x);
    forall p, q | Before(l, p, q) && p in m' && q in m'
      ensures Before(m', p, q)
    {
      InsertIndex(m, i, x, p);
      InsertIndex(m, i, x, q);
      assert Before(m, p, q);
    }
    forall q, y | q in l && q in m' && y in m' && y !in l && Tied(procs, q, y)
      ensures Before(m', q, y)
    {
      InsertIndex(m, i, x, q);
      if y != x {
        InsertIndex(m, i, x, y);
        assert Before(m, q, y);
      }
    }
  }

  lemma TailIndex(l: seq<int>, p: int)
    requires NoDup(l) && l != [] && p in l[1..]
    ensures p in l && IndexOf(l, p) == IndexOf(l[1..], p) + 1
  {
    var j := IndexOf(l[1..], p);
    IndexIs(l, j + 1);
  }

  lemma TailInLine(l: seq<int>, m: seq<int>, procs: seq<Proc>)
    requires InLine(l, m, procs) && NoDup(m) && m != []
    ensures InLine(l, m[1..], procs)
  {
    hide IndexOf;
    forall p, q | Before(l, p, q) && p in m[1..] && q in m[1..]
      ensures Before(m[1..], p, q)
    {
      TailIndex(m, p);
      TailIndex(m, q);
      assert Before(m, p, q);
    }
    forall q, y | q in l && q in m[1..] && y in m[1..] && y !in l && Tied(procs, q, y)
      ensures Before(m[1..], q, y)
    {
      TailIndex(m, q);
      TailIndex(m, y);
      assert Before(m, q, y);
    }
  }

  lemma SelfInLine(l: seq<int>, procs: seq<Proc>)
    ensures InLine(l, l, procs)
  {
  }

  lemma WithoutIndex(l: seq<int>, x: int, p: int)
    requires NoDup(l) && x in l && p in l && p != x
    ensures var m := Without(l, x);
            p in m && IndexOf(m, p) == IndexOf(l, p) - if IndexOf(l, p) > IndexOf(l, x) then 1 else 0
  {
    var m, i, j := Without(l, x), IndexOf(l, x), IndexOf(l, p);
    WithoutMembers(l, x);
    assert m[if j > i then j - 1 else j] == p;
    IndexIs(m, if j > i then j - 1 else j);
  }

  lemma WithoutInLine(l: seq<int>, x: int, procs: seq<Proc>)
    requires NoDup(l)
    ensures InLine(l, Without(l, x), procs)
  {
    if x in l {
      WithoutMembers(l, x);
      hide Without, IndexOf;
      forall p, q | Before(l, p, q) && p in Without(l, x) && q in Without(l, x)
        ensures Before(Without(l, x), p, q)
      {
        WithoutIndex(l, x, p);
        WithoutIndex(l, x, q);
        IndexApart(l, x, p, q);
      }
    }
  }

  lemma IndexApart(l: seq<int>, x: int, p: int, q: int)
    requires x in l && p in l && q in l && p != x && q != x
    ensures IndexOf(l, p) != IndexOf(l, x) && IndexOf(l, q) != IndexOf(l, x)
  {
    hide IndexOf;
  }

  /** The head of such a list has waited longer than everybody of its priority who was there before. */
  lemma HeadFirst(l: seq<int>, m: seq<int>, procs: seq<Proc>, q: int)
    requires InLine(l, m, procs) && NoDup(m) && m != [] && Pids(m, |procs|)
    requires q in l && q in m && q != m[0] && Tied(procs, q, m[0])
    ensures Before(l, m[0], q)
  {
    IndexIs(m, 0);
    hide IndexOf;
    assert !Before(m, q, m[0]);
    assert 0 <= q < |procs| && 0 <= m[0] < |procs|;
    if m[0] in l { SamePlace(l, m[0], q); }
  }

  lemma SamePlace(l: seq<int>, p: int, q: int)
    requires p in l && q in l && p != q
    ensures IndexOf(l, p) != IndexOf(l, q)
  {
    hide IndexOf;
  }

  lemma EnrollInLine(l: seq<int>, k: State, p: int, y: int, procs: seq<Proc>)
    requires Core(k, p, y) && IsPid(k, p) && InLine(l, k.lists[k.readylist], procs) && p !in l
    requires |procs| == |k.procs| && forall q :: 0 <= q < |procs| ==> procs[q].prprio == k.procs[q].prprio
    ensures InLine(l, Enroll(k, p).lists[k.readylist], procs)
  {
    hide Tame, SemLaw, Mail, InLine, InsertAt;
    var m, i := k.lists[k.readylist], PrioIndex(k.lists[k.readylist], k.keys, k.procs[p].prprio);
    assert PlacedOn(k, p, k.readylist);
    PrioIndexSplits(m, k.keys, k.procs[p].prprio);
    forall q | q in m && Tied(procs, q, p)
      ensures IndexOf(m, q) < i
    {
      assert k.keys[m[IndexOf(m, q)]] == k.procs[p].prprio;
    }
    InsertInLine(l, m, i, p, procs);
  }
}
