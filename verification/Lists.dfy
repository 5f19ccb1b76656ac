/** Sequences of distinct process numbers, as the queues of the kernel hold them. */
module Lists {

  ghost predicate NoDup<T>(l: seq<T>) {
    forall i, j :: 0 <= i < j < |l| ==> l[i] != l[j]
  }

  /** Every entry is a process number below n. */
  predicate Pids(l: seq<int>, n: int) {
    forall i :: 0 <= i < |l| ==> 0 <= l[i] < n
  }

  function InsertAt<T>(l: seq<T>, i: nat, p: T): seq<T>
    requires i <= |l|
  {
    l[..i] + [p] + l[i..]
  }

  function RemoveAt<T>(l: seq<T>, i: nat): seq<T>
    requires i < |l|
  {
    l[..i] + l[i + 1..]
  }

  function IndexOf<T(==)>(l: seq<T>, p: T): (i: nat)
    requires p in l
    ensures i < |l| && l[i] == p && p !in l[..i]
  {
    if l[0] == p then 0 else 1 + IndexOf(l[1..], p)
  }

  /** l without the first occurrence of p. */
  function Without<T(==)>(l: seq<T>, p: T): seq<T> {
    if p in l then RemoveAt(l, IndexOf(l, p)) else l
  }

  lemma NoDupTail<T>(l: seq<T>)
    requires NoDup(l) && l != []
    ensures l[0] !in l[1..] && NoDup(l[1..])
  {
  }

  lemma InsertMembers<T>(l: seq<T>, i: nat, p: T)
    requires i <= |l|
    ensures forall x :: x in InsertAt(l, i, p) <==> x == p || x in l
  {
    assert l == l[..i] + l[i..];
  }

  // Entry j of a list after an insertion.
  lemma InsertEntry<T>(l: seq<T>, i: nat, p: T, j: nat)
    requires i <= |l| && j <= |l|
    ensures InsertAt(l, i, p)[j] == if j < i then l[j] else if j == i then p else l[j - 1]
  {
  }

  lemma InsertNoDup<T>(l: seq<T>, i: nat, p: T)
    requires i <= |l| && NoDup(l) && p !in l
    ensures NoDup(InsertAt(l, i, p))
  {
  }

  lemma RemoveAtMember<T>(l: seq<T>, i: nat, x: T)
    requires i < |l| && NoDup(l)
    ensures x in RemoveAt(l, i) <==> x in l && x != l[i]
  {
    assert l == l[..i] + [l[i]] + l[i + 1..];
  }

  lemma RemoveAtNoDup<T>(l: seq<T>, i: nat)
    requires i < |l| && NoDup(l)
    ensures NoDup(RemoveAt(l, i))
  {
  }

  lemma WithoutMembers<T>(l: seq<T>, p: T)
    requires NoDup(l)
    ensures forall x :: x in Without(l, p) <==> x in l && x != p
    ensures NoDup(Without(l, p))
    ensures |Without(l, p)| == if p in l then |l| - 1 else |l|
  {
    if p in l {
      forall x
        ensures x in Without(l, p) <==> x in l && x != p
      {
        RemoveAtMember(l, IndexOf(l, p), x);
      }
      RemoveAtNoDup(l, IndexOf(l, p));
    }
  }

  lemma WithoutHead<T>(l: seq<T>)
    requires l != []
    ensures Without(l, l[0]) == l[1..]
  {
    assert IndexOf(l, l[0]) == 0;
  }

  // Walks around a table

  /** The entry behind entry i of a table of n. */
  function Round(i: nat, n: nat): nat {
    if i + 1 >= n then 0 else i + 1
  }

  /** The entry k steps from entry `from`. */
  function Around(from: nat, k: nat, n: nat): nat {
    if from + k < n then from + k else from + k - n
  }

  /** The number of steps from entry `from` to entry j. */
  function StepsTo(from: nat, j: nat, n: nat): nat
    requires from < n && j < n
  {
    if j >= from then j - from else j + n - from
  }

  lemma AroundOnce(from: nat, j: nat, n: nat)
    requires from < n && j < n
    ensures StepsTo(from, j, n) < n && Around(from, StepsTo(from, j, n), n) == j
  {
  }

  // Chains

  const NONE := -1

  /** Entry k of a chain, or the null link behind its end. */
  function At(l: seq<int>, k: int): int {
    if 0 <= k < |l| then l[k] else NONE
  }

  lemma OnceNoDup(s: seq<int>)
    requires forall x :: multiset(s)[x] <= 1
    ensures NoDup(s)
  {
    forall i, j | 0 <= i < j < |s|
      ensures s[i] != s[j]
    {
      assert s == s[..j] + s[j..];
      assert s[i] in s[..j] && s[j] in s[j..];
      assert multiset(s)[s[i]] == multiset(s[..j])[s[i]] + multiset(s[j..])[s[i]];
    }
  }
}
