/** Processes tied at the top priority share the processor in turn (Chapter 5). */
module RoundRobin {
  import opened Types
  import opened Lists
  import opened Queue
  import opened KernelState
  import opened KernelInv
  import opened KernelRuns

  /** n rescheduling steps. */
  ghost function Spin(k: State, n: nat): (k': State)
    requires Inv(k)
    ensures Inv(k') && SameTables(k, k')
  {
    if n == 0 then k else (ReschedInv(Spin(k, n - 1)); Resched(Spin(k, n - 1)))
  }

  /** The current process and the ready processes of its priority, in turn order. */
  ghost predicate Ring(k: State, ring: seq<int>, rest: seq<int>)
    requires Shape(k)
  {
    && ring != [] && ring[0] == k.currpid && k.lists[k.readylist] == ring[1..] + rest
    && Pids(ring, |k.procs|) && Pids(rest, |k.procs|)
    && (forall i :: 0 <= i < |ring| ==> k.procs[ring[i]].prprio == k.procs[k.currpid].prprio)
    && (forall i :: 0 <= i < |rest| ==> k.procs[rest[i]].prprio < k.procs[k.currpid].prprio)
  }

  function Rotate(s: seq<int>, n: nat): seq<int>
    requires n <= |s|
  {
    s[n..] + s[..n]
  }

  /** The tied prefix of the ready list of any state outside deferral: together with the current process it forms the
      ring, unless the current process has a higher priority and is alone. */
  ghost function Tied(k: State, l: seq<int>): (n: nat)
    requires Shape(k) && Pids(l, |k.procs|)
    ensures n <= |l|
  {
    if l == [] || k.procs[l[0]].prprio != k.procs[k.currpid].prprio then 0 else 1 + Tied(k, l[1..])
  }

  lemma TiedSplits(k: State, l: seq<int>)
    requires Shape(k) && Pids(l, |k.procs|)
    requires forall i, j :: 0 <= i < j < |l| ==> k.procs[l[i]].prprio >= k.procs[l[j]].prprio
    requires forall i :: 0 <= i < |l| ==> k.procs[l[i]].prprio <= k.procs[k.currpid].prprio
    ensures var n := Tied(k, l);
            && (forall i :: 0 <= i < n ==> k.procs[l[i]].prprio == k.procs[k.currpid].prprio)
            && (forall i :: n <= i < |l| ==> k.procs[l[i]].prprio < k.procs[k.currpid].prprio)
  {
    if l != [] && k.procs[l[0]].prprio == k.procs[k.currpid].prprio {
      TiedSplits(k, l[1..]);
      var n := Tied(k, l);
      forall i | 1 <= i < n ensures k.procs[l[i]].prprio == k.procs[k.currpid].prprio { assert l[i] == l[1..][i - 1]; }
      forall i | n <= i < |l| ensures k.procs[l[i]].prprio < k.procs[k.currpid].prprio { assert l[i] == l[1..][i - 1]; }
    }
  }

  lemma ReadyPrios(k: State)
    requires Inv(k) && k.ndefers == 0
    ensures var l := k.lists[k.readylist];
            && (forall i, j :: 0 <= i < j < |l| ==> k.procs[l[i]].prprio >= k.procs[l[j]].prprio)
            && (forall i :: 0 <= i < |l| ==> k.procs[l[i]].prprio <= k.procs[k.currpid].prprio)
            && (forall i :: 0 <= i < |l| ==> k.keys[l[i]] == k.procs[l[i]].prprio)
  {
    var l := k.lists[k.readylist];
    forall i, j | 0 <= i < j < |l|
      ensures k.procs[l[i]].prprio >= k.procs[l[j]].prprio
    {
      assert k.keys[l[i]] >= k.keys[l[j]];
    }
  }

  /** Every state outside deferral has its ring. */
  lemma RingExists(k: State) returns (ring: seq<int>, rest: seq<int>)
    requires Inv(k) && k.ndefers == 0
    ensures Ring(k, ring, rest)
  {
    hide Inv, Ring;
    InvShape(k);
    var l := k.lists[k.readylist];
    var n := Tied(k, l);
    ReadyPrios(k);
    TiedSplits(k, l);
    ring, rest := [k.currpid] + l[..n], l[n..];
    RingOf(k, n);
  }

  lemma RingOf(k: State, n: nat)
    requires Shape(k) && n <= |k.lists[k.readylist]|
    requires var l := k.lists[k.readylist];
      && (forall i :: 0 <= i < n ==> k.procs[l[i]].prprio == k.procs[k.currpid].prprio)
      && (forall i :: n <= i < |l| ==> k.procs[l[i]].prprio < k.procs[k.currpid].prprio)
    ensures var l := k.lists[k.readylist]; Ring(k, [k.currpid] + l[..n], l[n..])
  {
    var l := k.lists[k.readylist];
    var ring := [k.currpid] + l[..n];
    assert ring[1..] == l[..n];
    assert l[..n] + l[n..] == l;
  }

  // Insertion behind equals: a process of the ring's priority is placed between the ring and the rest.
  lemma {:induction false} BehindEquals(l: seq<int>, keys: seq<int>, n: nat, key: int)
    requires Pids(l, |keys|) && n <= |l|
    requires forall i :: 0 <= i < n ==> keys[l[i]] >= key
    requires forall i :: n <= i < |l| ==> keys[l[i]] < key
    ensures PrioIndex(l, keys, key) == n
  {
    if n > 0 {
      forall i | 0 <= i < n - 1 ensures keys[l[1..][i]] >= key { assert l[1..][i] == l[i + 1]; }
      forall i | n - 1 <= i < |l| - 1 ensures keys[l[1..][i]] < key { assert l[1..][i] == l[i + 1]; }
      BehindEquals(l[1..], keys, n - 1, key);
    }
  }

  /** Rescheduling changes no priority. */
  ghost predicate SameProcs(k: State, k': State) {
    |k'.procs| == |k.procs| && forall p :: 0 <= p < |k.procs| ==> k'.procs[p].prprio == k.procs[p].prprio
  }

  // Enrolling the current process puts it behind the others of its priority.
  lemma EnrollBehind(k: State, a: seq<int>, rest: seq<int>)
    requires Inv(k) && k.ndefers == 0 && Ring(k, [k.currpid] + a, rest)
    ensures Enroll(k, k.currpid).lists[k.readylist] == a + [k.currpid] + rest
  {
    var l, c, n := k.lists[k.readylist], k.currpid, |a|;
    ReadyPrios(k);
    assert ([c] + a)[1..] == a;
    forall i | 0 <= i < |l|
      ensures i < n ==> k.keys[l[i]] >= k.procs[c].prprio
      ensures i >= n ==> k.keys[l[i]] < k.procs[c].prprio
    {
      assert i < n ==> l[i] == ([c] + a)[i + 1];
      assert i >= n ==> l[i] == rest[i - n];
    }
    BehindEquals(l, k.keys, n, k.procs[c].prprio);
    assert InsertAt(a + rest, n, c) == a + [c] + rest;
  }

  // What one rescheduling step does when somebody else is tied with the current process.
  lemma ReschedTied(k: State, a: seq<int>, rest: seq<int>)
    requires Inv(k) && k.ndefers == 0 && Ring(k, [k.currpid] + a, rest) && a != []
    ensures CanResched(k)
    ensures var k' := Resched(k);
            && k'.currpid == a[0] && k'.lists[k.readylist] == a[1..] + [k.currpid] + rest
            && k'.ndefers == 0 && SameProcs(k, k')
  {
    var c := k.currpid;
    ReadyPrios(k);
    EnrollBehind(k, a, rest);
    assert k.lists[k.readylist][0] == a[0] by { assert ([c] + a)[1..] == a; }
    assert k.procs[a[0]].prprio == k.procs[c].prprio by { assert ([c] + a)[1] == a[0]; }
    assert (a + [c] + rest)[1..] == a[1..] + [c] + rest;
  }

  lemma ReschedAlone(k: State, rest: seq<int>)
    requires Inv(k) && k.ndefers == 0 && Ring(k, [k.currpid], rest)
    ensures CanResched(k) && Resched(k) == k
  {
    ReadyPrios(k);
    assert [k.currpid][1..] + rest == rest;
  }

  /** One rescheduling step rotates the ring by one. */
  lemma RotateOnce(k: State, ring: seq<int>, rest: seq<int>)
    requires Inv(k) && k.ndefers == 0 && Ring(k, ring, rest)
    ensures CanResched(k) && Ring(Resched(k), Rotate(ring, 1), rest)
    ensures Resched(k).ndefers == 0
  {
    var a := ring[1..];
    assert ring == [k.currpid] + a;
    if a == [] {
      ReschedAlone(k, rest);
      assert Rotate(ring, 1) == ring;
    } else {
      ReschedTied(k, a, rest);
      assert Rotate(ring, 1) == a + [k.currpid];
      RingMoved(k, Resched(k), a, rest);
    }
  }

  lemma RingMoved(k: State, k': State, a: seq<int>, rest: seq<int>)
    requires Shape(k) && Shape(k') && SameTables(k, k') && Ring(k, [k.currpid] + a, rest) && a != []
    requires k'.currpid == a[0] && k'.lists[k.readylist] == a[1..] + [k.currpid] + rest && SameProcs(k, k')
    ensures Ring(k', a + [k.currpid], rest)
  {
    var r, r' := [k.currpid] + a, a + [k.currpid];
    assert r'[1..] + rest == a[1..] + [k.currpid] + rest;
    forall i | 0 <= i < |r'|
      ensures 0 <= r'[i] < |k'.procs| && k'.procs[r'[i]].prprio == k.procs[k.currpid].prprio
    {
      assert r'[i] == if i < |a| then r[i + 1] else r[0];
    }
    assert k'.procs[r'[0]].prprio == k.procs[k.currpid].prprio;
  }

  lemma RotateTwice(s: seq<int>, n: nat)
    requires n < |s|
    ensures |Rotate(s, n)| == |s| && Rotate(Rotate(s, n), 1) == Rotate(s, n + 1)
  {
  }

  /** Round robin. With n processes tied at the top, the i-th of any n consecutive rescheduling steps runs the i-th
      process of the ring, and after n steps the ring is back where it was: each runs exactly once in a round. */
  lemma {:induction false} RoundRobinOrder(k: State, ring: seq<int>, rest: seq<int>, i: nat)
    requires Inv(k) && k.ndefers == 0 && Ring(k, ring, rest) && i <= |ring|
    ensures Spin(k, i).ndefers == 0 && Ring(Spin(k, i), Rotate(ring, i), rest)
    ensures Spin(k, i).currpid == ring[i % |ring|]
    ensures i == |ring| ==> Ring(Spin(k, i), ring, rest)
  {
    hide Inv, Resched, Ring;
    RingHead(k, ring, rest);
    if i > 0 {
      RoundRobinOrder(k, ring, rest, i - 1);
      RotateOnce(Spin(k, i - 1), Rotate(ring, i - 1), rest);
      RotateTwice(ring, i - 1);
    } else {
      assert Rotate(ring, 0) == ring;
    }
    RingHead(Spin(k, i), Rotate(ring, i), rest);
    RotateHead(ring, i);
  }

  lemma RingHead(k: State, ring: seq<int>, rest: seq<int>)
    requires Inv(k) && Ring(k, ring, rest)
    ensures ring != [] && k.currpid == ring[0]
  {
  }

  lemma RotateHead(s: seq<int>, i: nat)
    requires i <= |s| && s != []
    ensures Rotate(s, i) != [] && Rotate(s, i)[0] == s[i % |s|]
    ensures i == |s| ==> Rotate(s, i) == s
  {
    ModOf(i, |s|);
    if i < |s| { assert Rotate(s, i)[0] == s[i]; }
  }

  lemma ModOf(i: nat, n: nat)
    requires i <= n && n > 0
    ensures i % n == if i < n then i else 0
  {
  }

  /** The processes of the ring are distinct, so each of them runs exactly once in a round. */
  lemma RingDistinct(k: State, ring: seq<int>, rest: seq<int>)
    requires Inv(k) && Ring(k, ring, rest)
    ensures NoDup(ring)
  {
    var l := k.lists[k.readylist];
    assert PlacedOn(k, -1, k.readylist);
    forall i, j | 0 <= i < j < |ring|
      ensures ring[i] != ring[j]
    {
      assert ring[j] == l[j - 1] && ring[j] in l;
      if i > 0 {
        assert ring[i] == l[i - 1];
      }
    }
  }
}
