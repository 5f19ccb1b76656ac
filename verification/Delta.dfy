/** The sleep queue (Chapter 13): a delta list as a fast form of a sorted list of absolute deadlines. */
module Delta {
  import opened Types
  import opened Lists
  import opened Queue

  /** A sleeping process and the number of ticks after which it is due. */
  datatype Alarm = Alarm(pid: int, due: int)

  /** The simple form: each entry with the sum of the deltas up to it. */
  function Agenda(l: seq<int>, keys: seq<int>, base: int): (a: seq<Alarm>)
    requires Pids(l, |keys|)
    ensures |a| == |l|
  {
    if l == [] then []
    else
      var due := base + keys[l[0]];
      [Alarm(l[0], due)] + Agenda(l[1..], keys, due)
  }

  /** Insertion into a list of deadlines, behind every entry due no later. */
  function Schedule(a: seq<Alarm>, x: Alarm): seq<Alarm> {
    if a == [] || a[0].due > x.due then [x] + a else [a[0]] + Schedule(a[1..], x)
  }

  function Cancel(a: seq<Alarm>, p: int): seq<Alarm> {
    if a == [] then [] else if a[0].pid == p then a[1..] else [a[0]] + Cancel(a[1..], p)
  }

  function Due(a: seq<Alarm>, p: int): Option<int> {
    if a == [] then None else if a[0].pid == p then Some(a[0].due) else Due(a[1..], p)
  }

  /** The keys after p has left a delta list: its successor takes over the delta of p. */
  function GiveBack(l: seq<int>, keys: seq<int>, p: int): (keys': seq<int>)
    requires Pids(l, |keys|)
    ensures |keys'| == |keys|
  {
    if p in l && IndexOf(l, p) + 1 < |l| then
      var next := l[IndexOf(l, p) + 1];
      keys[next := keys[next] + keys[p]]
    else keys
  }

  /** How many leading entries of a delta list have run out. */
  function Expired(l: seq<int>, keys: seq<int>): (n: nat)
    requires Pids(l, |keys|)
    ensures n <= |l|
  {
    if l == [] || keys[l[0]] > 0 then 0 else 1 + Expired(l[1..], keys)
  }

  /** Deltas are not negative and no deadline exceeds a C int. */
  ghost predicate Tame(l: seq<int>, keys: seq<int>) {
    && Pids(l, |keys|)
    && NoDup(l)
    && (forall i :: 0 <= i < |l| ==> 0 <= keys[l[i]])
    && (forall x :: x in Agenda(l, keys, 0) ==> x.due <= INT32_MAX)
  }

  lemma AgendaFrame(l: seq<int>, keys: seq<int>, keys': seq<int>, base: int)
    requires Pids(l, |keys|) && Pids(l, |keys'|)
    requires forall i :: 0 <= i < |l| ==> keys[l[i]] == keys'[l[i]]
    ensures Agenda(l, keys, base) == Agenda(l, keys', base)
  {
  }

  lemma AgendaUpdate(l: seq<int>, keys: seq<int>, x: int, v: int, base: int)
    requires Pids(l, |keys|) && 0 <= x < |keys| && x !in l
    ensures Agenda(l, keys[x := v], base) == Agenda(l, keys, base)
  {
    forall i | 0 <= i < |l| ensures l[i] != x { assert l[i] in l; }
    AgendaFrame(l, keys, keys[x := v], base);
  }

  lemma {:induction false} SumShift(l: seq<int>, keys: seq<int>, i: nat)
    requires Pids(l, |keys|) && 1 <= i <= |l|
    ensures Sum(l, keys, i) == keys[l[0]] + Sum(l[1..], keys, i - 1)
  {
    if i > 1 {
      SumShift(l, keys, i - 1);
    }
  }

  lemma AgendaCons(x: int, m: seq<int>, keys: seq<int>, base: int)
    requires Pids(m, |keys|) && 0 <= x < |keys|
    ensures Pids([x] + m, |keys|)
    ensures Agenda([x] + m, keys, base) == [Alarm(x, base + keys[x])] + Agenda(m, keys, base + keys[x])
  {
    assert ([x] + m)[1..] == m;
  }

  /** Where the delta search stops: every entry before that place is due no later than the new one, the entry at that
      place is due later. */
  lemma {:induction false} DeltaIndexSplits(l: seq<int>, keys: seq<int>, key: int)
    requires Pids(l, |keys|)
    ensures var i := DeltaIndex(l, keys, key);
            && (forall j :: 1 <= j <= i ==> Sum(l, keys, j) <= key)
            && (i < |l| ==> Sum(l, keys, i + 1) > key)
  {
    if l != [] && keys[l[0]] <= key {
      var i := DeltaIndex(l, keys, key);
      DeltaIndexSplits(l[1..], keys, key - keys[l[0]]);
      forall j | 1 <= j <= i ensures Sum(l, keys, j) <= key { SumShift(l, keys, j); }
      if i < |l| { SumShift(l, keys, i + 1); }
    }
  }

  // An insertion that passes the first entry is an insertion into the rest.
  lemma InsertPast(l: seq<int>, keys: seq<int>, p: int, key: int)
    requires Pids(l, |keys|) && 0 <= p < |keys| && l != [] && keys[l[0]] <= key
    ensures DeltaKeys(l, keys, p, key) == DeltaKeys(l[1..], keys, p, key - keys[l[0]])
    ensures InsertAt(l, DeltaIndex(l, keys, key), p)
         == [l[0]] + InsertAt(l[1..], DeltaIndex(l[1..], keys, key - keys[l[0]]), p)
  {
    var m, i := l[1..], DeltaIndex(l[1..], keys, key - keys[l[0]]);
    assert DeltaIndex(l, keys, key) == i + 1;
    hide DeltaIndex, Sum, InsertAt;
    SumShift(l, keys, i + 1);
    InsertAtPast(l, i, p);
  }

  lemma InsertAtPast(l: seq<int>, i: nat, p: int)
    requires i < |l|
    ensures InsertAt(l, i + 1, p) == [l[0]] + InsertAt(l[1..], i, p)
  {
    assert l[..i + 1] == [l[0]] + l[1..][..i];
  }

  lemma InsertFirst(l: seq<int>, keys: seq<int>, p: int, key: int, base: int)
    requires Pids(l, |keys|) && NoDup(l) && 0 <= p < |keys| && p !in l
    requires DeltaIndex(l, keys, key) == 0
    ensures InsertAt(l, 0, p) == [p] + l && Pids([p] + l, |keys|)
    ensures Agenda([p] + l, DeltaKeys(l, keys, p, key), base) == [Alarm(p, base + key)] + Agenda(l, keys, base)
  {
    var keys' := DeltaKeys(l, keys, p, key);
    AgendaCons(p, l, keys', base);
    if l != [] {
      assert p != l[0];
      AgendaFrame(l[1..], keys, keys', base + keys[l[0]]);
    }
  }

  lemma PidsInsert(l: seq<int>, n: int, i: nat, p: int)
    requires Pids(l, n) && i <= |l| && 0 <= p < n
    ensures Pids(InsertAt(l, i, p), n)
  {
  }

  lemma PidsWithout(l: seq<int>, n: int, p: int)
    requires Pids(l, n)
    ensures Pids(Without(l, p), n)
  {
  }

  /** `insertd` refines sorted insertion of the absolute deadline: the new process gets exactly the requested
      delay, stands after all equal deadlines, and no other deadline changes. */
  lemma {:induction false} InsertRefines(l: seq<int>, keys: seq<int>, p: int, key: int, base: int)
    requires Pids(l, |keys|) && NoDup(l) && 0 <= p < |keys| && p !in l
    ensures Pids(InsertAt(l, DeltaIndex(l, keys, key), p), |keys|)
    ensures Agenda(InsertAt(l, DeltaIndex(l, keys, key), p), DeltaKeys(l, keys, p, key), base)
         == Schedule(Agenda(l, keys, base), Alarm(p, base + key))
  {
    hide DeltaKeys, InsertAt;
    PidsInsert(l, |keys|, DeltaIndex(l, keys, key), p);
    if l == [] || keys[l[0]] > key {
      InsertFirst(l, keys, p, key, base);
    } else {
      var rest, d := l[1..], keys[l[0]];
      NoDupTail(l);
      InsertPast(l, keys, p, key);
      InsertKeepsPassed(l, keys, p, key);
      InsertRefines(rest, keys, p, key - d, base + d);
      assert l == [l[0]] + rest;
      PidsInsert(rest, |keys|, DeltaIndex(rest, keys, key - d), p);
      InsertedCons(l[0], rest, InsertAt(rest, DeltaIndex(rest, keys, key - d), p), keys, DeltaKeys(l, keys, p, key), base);
      SchedulePast(Alarm(l[0], base + d), Agenda(rest, keys, base + d), Alarm(p, base + key));
    }
  }

  lemma InsertedCons(x: int, rest: seq<int>, m: seq<int>, keys: seq<int>, keys': seq<int>, base: int)
    requires Pids(rest, |keys|) && Pids(m, |keys'|) && 0 <= x < |keys| && x < |keys'| && keys'[x] == keys[x]
    ensures Pids([x] + m, |keys'|) && Pids([x] + rest, |keys|)
    ensures Agenda([x] + m, keys', base) == [Alarm(x, base + keys[x])] + Agenda(m, keys', base + keys[x])
    ensures Agenda([x] + rest, keys, base) == [Alarm(x, base + keys[x])] + Agenda(rest, keys, base + keys[x])
  {
    AgendaCons(x, m, keys', base);
    AgendaCons(x, rest, keys, base);
  }

  lemma SchedulePast(y: Alarm, a: seq<Alarm>, x: Alarm)
    requires y.due <= x.due
    ensures Schedule([y] + a, x) == [y] + Schedule(a, x)
  {
    assert ([y] + a)[1..] == a;
  }

  // Passed entries keep their deltas.
  lemma InsertKeepsPassed(l: seq<int>, keys: seq<int>, p: int, key: int)
    requires Pids(l, |keys|) && NoDup(l) && 0 <= p < |keys| && p !in l
    ensures forall j :: 0 <= j < DeltaIndex(l, keys, key) ==> DeltaKeys(l, keys, p, key)[l[j]] == keys[l[j]]
  {
  }

  lemma IndexPast(l: seq<int>, p: int)
    requires p in l && l[0] != p
    ensures p in l[1..] && IndexOf(l, p) == IndexOf(l[1..], p) + 1
  {
  }

  lemma WithoutPast(l: seq<int>, p: int)
    requires p in l && l[0] != p
    ensures p in l[1..] && Without(l, p) == [l[0]] + Without(l[1..], p)
  {
    hide IndexOf, RemoveAt;
    IndexPast(l, p);
    RemovePast(l, IndexOf(l[1..], p));
  }

  lemma RemovePast(l: seq<int>, i: nat)
    requires i + 1 < |l|
    ensures RemoveAt(l, i + 1) == [l[0]] + RemoveAt(l[1..], i)
  {
    assert l[..i + 1] == [l[0]] + l[1..][..i];
  }

  // A removal behind the first entry passes its delta on behind the first entry.
  lemma GiveBackPast(l: seq<int>, keys: seq<int>, p: int)
    requires Pids(l, |keys|) && NoDup(l) && p in l && l[0] != p
    ensures GiveBack(l, keys, p) == GiveBack(l[1..], keys, p) && GiveBack(l, keys, p)[l[0]] == keys[l[0]]
  {
    IndexPast(l, p);
    var i := IndexOf(l, p);
    if i + 1 < |l| {
      assert l[1..][i] == l[i + 1];
    }
  }

  /** `unsleep` refines cancelling one deadline: every other deadline stays. */
  lemma {:induction false} UnsleepRefines(l: seq<int>, keys: seq<int>, p: int, base: int)
    requires Pids(l, |keys|) && NoDup(l) && p in l
    ensures Pids(Without(l, p), |keys|)
    ensures Agenda(Without(l, p), GiveBack(l, keys, p), base) == Cancel(Agenda(l, keys, base), p)
  {
    hide Agenda, Without, GiveBack;
    PidsWithout(l, |keys|, p);
    AgendaTail(l, keys, base);
    if l[0] == p {
      UnsleepFirst(l, keys, base);
    } else {
      var rest := l[1..];
      WithoutPast(l, p);
      GiveBackPast(l, keys, p);
      PidsWithout(rest, |keys|, p);
      NoDupTail(l);
      UnsleepRefines(rest, keys, p, base + keys[l[0]]);
      AgendaCons(l[0], Without(rest, p), GiveBack(l, keys, p), base);
    }
  }

  lemma UnsleepFirst(l: seq<int>, keys: seq<int>, base: int)
    requires Pids(l, |keys|) && NoDup(l) && l != []
    ensures Without(l, l[0]) == l[1..]
    ensures Agenda(l[1..], GiveBack(l, keys, l[0]), base) == Agenda(l[1..], keys, base + keys[l[0]])
  {
    WithoutHead(l);
    NoDupTail(l);
    if |l| > 1 {
      assert IndexOf(l, l[0]) == 0;
      assert GiveBack(l, keys, l[0]) == keys[l[1] := keys[l[1]] + keys[l[0]]];
      hide GiveBack, Agenda, IndexOf;
      ShiftHead(l[1..], keys, keys[l[0]], base);
    }
  }

  /** Changing the head delta by d moves every deadline by d: one tick is the case d == -1. */
  lemma ShiftHead(l: seq<int>, keys: seq<int>, d: int, base: int)
    requires Pids(l, |keys|) && NoDup(l) && l != []
    ensures Agenda(l, keys[l[0] := keys[l[0]] + d], base) == Agenda(l, keys, base + d)
  {
    NoDupTail(l);
    AgendaUpdate(l[1..], keys, l[0], keys[l[0]] + d, base + keys[l[0]] + d);
  }

  lemma AgendaTail(l: seq<int>, keys: seq<int>, base: int)
    requires Pids(l, |keys|) && l != []
    ensures Agenda(l, keys, base)[0] == Alarm(l[0], base + keys[l[0]])
    ensures Agenda(l, keys, base)[1..] == Agenda(l[1..], keys, base + keys[l[0]])
  {
  }

  lemma {:induction false} DueBase(l: seq<int>, keys: seq<int>, base: int, d: int, p: int)
    requires Pids(l, |keys|)
    ensures (p in l) == Due(Agenda(l, keys, base), p).Some?
    ensures p in l ==> Due(Agenda(l, keys, base + d), p) == Some(Due(Agenda(l, keys, base), p).value + d)
  {
    hide Agenda, Pids;
    if l == [] {
      AgendaEmpty(keys, base);
    } else {
      PidsTail(l, |keys|);
      AgendaTail(l, keys, base);
      AgendaTail(l, keys, base + d);
      assert l == [l[0]] + l[1..];
      DueBase(l[1..], keys, base + keys[l[0]], d, p);
    }
  }

  lemma PidsTail(l: seq<int>, n: int)
    requires Pids(l, n) && l != []
    ensures 0 <= l[0] < n && Pids(l[1..], n)
  {
  }

  lemma AgendaEmpty(keys: seq<int>, base: int)
    ensures Agenda([], keys, base) == []
  {
  }

  lemma {:induction false} DueSchedule(a: seq<Alarm>, x: Alarm, p: int)
    requires forall i :: 0 <= i < |a| ==> a[i].pid != x.pid
    ensures Due(Schedule(a, x), p) == if p == x.pid then Some(x.due) else Due(a, p)
  {
    if a == [] {
      assert ([x] + a)[1..] == a;
    } else if a[0].due > x.due {
      assert ([x] + a)[1..] == a;
      NotDue(a, x.pid);
    } else {
      DueSchedule(a[1..], x, p);
    }
  }

  lemma NotDue(a: seq<Alarm>, p: int)
    requires forall i :: 0 <= i < |a| ==> a[i].pid != p
    ensures Due(a, p) == None
  {
  }

  lemma {:induction false} DueCancel(a: seq<Alarm>, q: int, p: int)
    requires p != q
    ensures Due(Cancel(a, q), p) == Due(a, p)
  {
    if a != [] && a[0].pid != q {
      DueCancel(a[1..], q, p);
      assert ([a[0]] + Cancel(a[1..], q))[1..] == Cancel(a[1..], q);
    }
  }

  /** With no negative delta, the entries that have run out are those due by now, and they leave without
      moving any other deadline. */
  lemma {:induction false} ExpiredAreDue(l: seq<int>, keys: seq<int>, p: int)
    requires Pids(l, |keys|) && NoDup(l) && (forall i :: 0 <= i < |l| ==> 0 <= keys[l[i]]) && p in l
    ensures var n := Expired(l, keys);
            && (p in l[..n] <==> Due(Agenda(l, keys, 0), p) == Some(0))
            && (p in l[..n] <==> p !in l[n..])
            && (p in l[n..] ==> Due(Agenda(l[n..], keys, 0), p) == Due(Agenda(l, keys, 0), p))
  {
    var n := Expired(l, keys);
    if n == 0 {
      assert l[n..] == l;
      DueAtLeast(l, keys, 0, p);
    } else {
      assert (Agenda(l, keys, 0))[1..] == Agenda(l[1..], keys, 0);
      assert l[..n] == [l[0]] + l[1..][..n - 1];
      assert l[n..] == l[1..][n - 1..];
      if p == l[0] {
        assert p !in l[1..];
        assert forall x :: x in l[n..] ==> x in l[1..];
      } else {
        assert l == [l[0]] + l[1..];
        ExpiredAreDue(l[1..], keys, p);
      }
    }
  }

  lemma {:induction false} DueAtLeast(l: seq<int>, keys: seq<int>, base: int, p: int)
    requires Pids(l, |keys|) && (forall i :: 0 <= i < |l| ==> 0 <= keys[l[i]]) && p in l
    ensures Due(Agenda(l, keys, base), p).Some? && Due(Agenda(l, keys, base), p).value >= base + keys[l[0]]
  {
    assert (Agenda(l, keys, base))[1..] == Agenda(l[1..], keys, base + keys[l[0]]);
    if p != l[0] {
      assert l == [l[0]] + l[1..];
      DueAtLeast(l[1..], keys, base + keys[l[0]], p);
    }
  }

  lemma {:induction false} ScheduleMembers(a: seq<Alarm>, x: Alarm, y: Alarm)
    requires y in Schedule(a, x)
    ensures y == x || y in a
  {
    if a != [] && a[0].due <= x.due && y != a[0] {
      ScheduleMembers(a[1..], x, y);
    }
  }

  lemma {:induction false} CancelMembers(a: seq<Alarm>, p: int, y: Alarm)
    requires y in Cancel(a, p)
    ensures y in a
  {
    if a != [] && a[0].pid != p && y != a[0] {
      CancelMembers(a[1..], p, y);
    }
  }

  // What is left of the delay is between 0 and the delta of the entry behind the new one.
  lemma {:induction false} RestBounds(l: seq<int>, keys: seq<int>, key: int)
    requires Pids(l, |keys|) && 0 <= key && (forall i :: 0 <= i < |l| ==> 0 <= keys[l[i]])
    ensures var i := DeltaIndex(l, keys, key);
            0 <= key - Sum(l, keys, i) <= key && (i < |l| ==> key - Sum(l, keys, i) < keys[l[i]])
  {
    if l != [] && keys[l[0]] <= key {
      RestBounds(l[1..], keys, key - keys[l[0]]);
      SumShift(l, keys, DeltaIndex(l, keys, key));
    }
  }

  /** Insertion keeps the list tame: no delta becomes negative and no deadline leaves the range of a C int. */
  lemma InsertTame(l: seq<int>, keys: seq<int>, p: int, key: int)
    requires Tame(l, keys) && 0 <= p < |keys| && p !in l && 0 <= key <= INT32_MAX
    ensures Tame(InsertAt(l, DeltaIndex(l, keys, key), p), DeltaKeys(l, keys, p, key))
  {
    hide InsertAt, DeltaIndex, Agenda, Schedule;
    var i, keys' := DeltaIndex(l, keys, key), DeltaKeys(l, keys, p, key);
    var m := InsertAt(l, i, p);
    InsertRefines(l, keys, p, key, 0);
    InsertNoDup(l, i, p);
    InsertMembers(l, i, p);
    RestBounds(l, keys, key);
    forall j | 0 <= j < |m|
      ensures 0 <= keys'[m[j]]
    {
      assert m[j] in m;
      if m[j] != p {
        var t :| 0 <= t < |l| && l[t] == m[j];
      }
    }
    hide DeltaKeys;
    forall x | x in Agenda(m, keys', 0)
      ensures x.due <= INT32_MAX
    {
      ScheduleMembers(Agenda(l, keys, 0), Alarm(p, key), x);
    }
  }

  /** Removal keeps the list tame; in particular the delta given back overflows nothing. */
  lemma UnsleepTame(l: seq<int>, keys: seq<int>, p: int)
    requires Tame(l, keys) && p in l
    ensures Tame(Without(l, p), GiveBack(l, keys, p))
  {
    UnsleepRefines(l, keys, p, 0);
    WithoutMembers(l, p);
    var m, keys' := Without(l, p), GiveBack(l, keys, p);
    forall j | 0 <= j < |m|
      ensures 0 <= keys'[m[j]]
    {
      assert m[j] in m && m[j] in l;
      var t :| 0 <= t < |l| && l[t] == m[j];
      assert 0 <= keys[p] by { assert l[IndexOf(l, p)] == p; }
    }
    forall x | x in Agenda(m, keys', 0)
      ensures x.due <= INT32_MAX
    {
      CancelMembers(Agenda(l, keys, 0), p, x);
    }
  }

  lemma {:induction false} AgendaBase(l: seq<int>, keys: seq<int>, base: int, d: int, x: Alarm)
    requires Pids(l, |keys|) && x in Agenda(l, keys, base + d)
    ensures Alarm(x.pid, x.due - d) in Agenda(l, keys, base)
  {
    if x != Alarm(l[0], base + d + keys[l[0]]) {
      AgendaBase(l[1..], keys, base + keys[l[0]], d, x);
    }
  }

  lemma HeadDownTame(l: seq<int>, keys: seq<int>)
    requires Tame(l, keys) && l != [] && keys[l[0]] >= 1
    ensures Tame(l, keys[l[0] := keys[l[0]] - 1])
  {
    var keys' := keys[l[0] := keys[l[0]] - 1];
    ShiftHead(l, keys, -1, 0);
    forall x | x in Agenda(l, keys', 0)
      ensures x.due <= INT32_MAX
    {
      AgendaBase(l, keys, 0, -1, x);
    }
  }

  /** No delta of a tame list exceeds a C int, even after its predecessor's has been added to it. */
  lemma {:induction false} KeyBelowDue(l: seq<int>, keys: seq<int>, base: int, p: int)
    requires Pids(l, |keys|) && (forall i :: 0 <= i < |l| ==> 0 <= keys[l[i]]) && p in l && 0 <= base
    ensures exists x :: x in Agenda(l, keys, base) && keys[p] <= x.due
  {
    var a, due := Agenda(l, keys, base), base + keys[l[0]];
    if p == l[0] {
      assert a[0] in a;
    } else {
      assert l == [l[0]] + l[1..];
      KeyBelowDue(l[1..], keys, due, p);
      var x :| x in Agenda(l[1..], keys, due) && keys[p] <= x.due;
      assert x in a;
    }
  }

  lemma TameKeys(l: seq<int>, keys: seq<int>, p: int)
    requires Tame(l, keys) && p in l
    ensures 0 <= keys[p] <= INT32_MAX
  {
    KeyBelowDue(l, keys, 0, p);
    assert l[IndexOf(l, p)] == p;
  }

  /** The sum that `unsleep` stores in the successor is a C int. */
  lemma GiveBackBound(l: seq<int>, keys: seq<int>, p: int)
    requires Tame(l, keys) && p in l && IndexOf(l, p) + 1 < |l|
    ensures var next := l[IndexOf(l, p) + 1];
            next != p && 0 <= keys[next] + keys[p] <= INT32_MAX
  {
    var i := IndexOf(l, p);
    var next := l[i + 1];
    UnsleepTame(l, keys, p);
    assert next in l && l[i] != next;
    WithoutMembers(l, p);
    TameKeys(Without(l, p), GiveBack(l, keys, p), next);
  }

  /** The conversion of a C `uint32` argument to an `int32` parameter. */
  function ToInt32(x: int): int
    requires 0 <= x < 0x1_0000_0000
  {
    if x <= INT32_MAX then x else x - 0x1_0000_0000
  }

  /** `sleepms` takes a uint32 and `insertd` an int32: the deadline is the delay asked for if and only if the delay
      does not exceed 2^31 - 1. */
  lemma DelayFitsIff(l: seq<int>, keys: seq<int>, p: int, delay: int)
    requires Pids(l, |keys|) && NoDup(l) && 0 <= p < |keys| && p !in l && 0 <= delay < 0x1_0000_0000
    ensures var i := DeltaIndex(l, keys, ToInt32(delay));
            && Pids(InsertAt(l, i, p), |keys|)
            && (Due(Agenda(InsertAt(l, i, p), DeltaKeys(l, keys, p, ToInt32(delay)), 0), p) == Some(delay)
                <==> delay <= INT32_MAX)
  {
    var a := Agenda(l, keys, 0);
    InsertRefines(l, keys, p, ToInt32(delay), 0);
    forall i | 0 <= i < |a| ensures a[i].pid != p { AgendaPids(l, keys, 0, i); assert l[i] in l; }
    DueSchedule(a, Alarm(p, ToInt32(delay)), p);
  }

  lemma AgendaPids(l: seq<int>, keys: seq<int>, base: int, i: nat)
    requires Pids(l, |keys|) && i < |l|
    ensures Agenda(l, keys, base)[i].pid == l[i]
  {
    if i > 0 {
      AgendaPids(l[1..], keys, base + keys[l[0]], i - 1);
    }
  }

  /** An inserted process is due after exactly its delay, and every other one when it was due before. */
  lemma InsertDue(l: seq<int>, keys: seq<int>, c: int, key: int, p: int)
    requires Pids(l, |keys|) && NoDup(l) && 0 <= c < |keys| && c !in l
    ensures var m, keys' := InsertAt(l, DeltaIndex(l, keys, key), c), DeltaKeys(l, keys, c, key);
            && Pids(m, |keys'|) && (p in m <==> p == c || p in l)
            && Due(Agenda(m, keys', 0), p) == if p == c then Some(key) else Due(Agenda(l, keys, 0), p)
  {
    hide Due, DeltaKeys, InsertAt, DeltaIndex, Agenda;
    InsertRefines(l, keys, c, key, 0);
    InsertMembers(l, DeltaIndex(l, keys, key), c);
    var a := Agenda(l, keys, 0);
    forall i | 0 <= i < |a| ensures a[i].pid != c {
      AgendaPids(l, keys, 0, i);
      assert l[i] in l;
    }
    DueSchedule(a, Alarm(c, key), p);
  }

  /** A first delta of at least one stays that when a delay of at least one is inserted. */
  lemma InsertHead(l: seq<int>, keys: seq<int>, c: int, key: int)
    requires Pids(l, |keys|) && NoDup(l) && 0 <= c < |keys| && c !in l && key >= 1
    requires l != [] ==> keys[l[0]] >= 1
    ensures var m, keys' := InsertAt(l, DeltaIndex(l, keys, key), c), DeltaKeys(l, keys, c, key);
            m != [] && 0 <= m[0] < |keys'| && keys'[m[0]] >= 1
  {
    var i := DeltaIndex(l, keys, key);
    hide DeltaIndex, Sum;
    if i == 0 {
      assert Sum(l, keys, 0) == 0 by { SumNone(l, keys); }
    } else if i < |l| {
      assert l[0] != l[i];
    }
  }

  lemma SumNone(l: seq<int>, keys: seq<int>)
    requires Pids(l, |keys|)
    ensures Sum(l, keys, 0) == 0
  {
  }
}
