/** The IP header checksum (Chapter17/ip.c): it folds the carries in only once, and still every header that it seals is
    accepted; how it compares with the checksum of section 1 of RFC 1071. */
module Checksum {

  const HALF := 0x1_0000
  const FFFF := 0xFFFF
  const WORDS := 10

  // The word of the header that holds the checksum.
  const FIELD := 5

  predicate Word(x: int) {
    0 <= x < HALF
  }

  predicate Header(h: seq<int>) {
    |h| == WORDS && forall i :: 0 <= i < WORDS ==> Word(h[i])
  }

  /** Exchanges the two bytes of a word. */
  function Htons(x: int): (r: int)
    requires Word(x)
    ensures Word(r)
  {
    x % 256 * 256 + x / 256
  }

  lemma HtonsTwice(x: int)
    requires Word(x)
    ensures Htons(Htons(x)) == x
  {
  }

  /** The sum of the first n words, each in network order. */
  function Sum(h: seq<int>, n: nat): (s: int)
    requires Header(h) && n <= WORDS
    ensures 0 <= s <= n * FFFF
  {
    if n == 0 then 0 else Sum(h, n - 1) + Htons(h[n - 1])
  }

  /** The sum with the carries added in once, modulo 2^16. */
  function FoldOnce(s: int): int {
    (s + s / HALF) % HALF
  }

  /** The value that `ipcksum` returns for a header whose words sum up to s. */
  function Cksum(s: int): int {
    var c := FFFF - FoldOnce(s);
    if c == FFFF then 0 else c
  }

  // The checksum of RFC 1071: carries are added in until none is left.

  function FoldAll(s: nat): (r: nat)
    ensures r < HALF
    decreases s
  {
    if s < HALF then s else FoldAll(s % HALF + s / HALF)
  }

  function RfcCksum(s: nat): nat {
    FFFF - FoldAll(s)
  }

  /** The RFC's receiver accepts a header whose one's complement sum is all ones. */
  predicate RfcAccepts(s: nat) {
    FoldAll(s) == FFFF
  }

  /** Folding all carries is the residue modulo 65535, with 65535 for a nonzero sum that is divisible. */
  lemma {:induction false} FoldAllIs(s: nat)
    ensures FoldAll(s) == if s == 0 then 0 else (s - 1) % FFFF + 1
    decreases s
  {
    if s >= HALF {
      var q, r := s / HALF, s % HALF;
      FoldAllIs(r + q);
      assert s - 1 == q * FFFF + (r + q - 1);
      SameResidue(q, r + q - 1);
    }
  }

  lemma {:induction false} SameResidue(q: nat, x: nat)
    ensures (q * FFFF + x) % FFFF == x % FFFF
  {
    if q > 0 {
      SameResidue(q - 1, x + FFFF);
      assert q * FFFF + x == (q - 1) * FFFF + (x + FFFF);
    }
  }

  // What happens at the two ends of a transmission

  lemma FoldOnceIs(s: int)
    requires 0 <= s <= WORDS * FFFF
    ensures var t := s / HALF + s % HALF;
            FoldOnce(s) == if t < HALF then t else t - HALF
  {
    var q, r := s / HALF, s % HALF;
    assert s + q == q * HALF + (r + q);
  }

  /** Adding the checksum of a sum to that sum gives a sum with checksum zero. */
  lemma SealedSum(s: int)
    requires 0 <= s <= (WORDS - 1) * FFFF
    ensures 0 <= Cksum(s) < HALF && Cksum(s + Cksum(s)) == 0
  {
    var q, r := s / HALF, s % HALF;
    FoldOnceIs(s);
    var s' := s + Cksum(s);
    if q + r == 0 || q + r == HALF {
      assert s' == s;
    } else if q + r < HALF {
      assert s' == q * HALF + (FFFF - q);
      assert s' / HALF == q && s' % HALF == FFFF - q;
    } else {
      assert s' == (q + 1) * HALF + (FFFF - q);
      assert s' / HALF == q + 1 && s' % HALF == FFFF - q;
    }
    FoldOnceIs(s');
  }

  /** A header is accepted exactly when its sum is divisible by 65535, as the RFC has it (or zero), or when one more
      carry would have been left over after the single fold. */
  lemma AcceptsIff(s: int)
    requires 0 <= s <= WORDS * FFFF
    ensures Cksum(s) == 0 <==> s % FFFF == 0 || s / HALF + s % HALF == HALF
    ensures s > 0 ==> (RfcAccepts(s) <==> s % FFFF == 0)
  {
    var q, r := s / HALF, s % HALF;
    FoldOnceIs(s);
    assert s == q * FFFF + (q + r);
    SameResidue(q, q + r);
    FoldAllIs(s);
    if s > 0 { Predecessor(s); }
  }

  lemma Predecessor(s: int)
    requires s > 0
    ensures (s - 1) % FFFF == FFFF - 1 <==> s % FFFF == 0
  {
  }

  /** For a nonzero sum the value is the RFC's exactly when one fold leaves no carry; for zero it never is. */
  lemma MatchesRfcIff(s: int)
    requires 0 <= s <= WORDS * FFFF
    ensures Cksum(s) == RfcCksum(s) <==> s > 0 && s / HALF + s % HALF <= FFFF
  {
    var q, r := s / HALF, s % HALF;
    FoldOnceIs(s);
    FoldAllIs(s);
    if s > 0 {
      assert s - 1 == q * FFFF + (q + r - 1);
      SameResidue(q, q + r - 1);
      if q + r <= FFFF {
        assert (q + r - 1) % FFFF == q + r - 1;
      } else {
        assert (q + r - 1) % FFFF == q + r - 1 - FFFF;
      }
    }
  }

  /** A receiver that follows the RFC accepts a header sealed here exactly under the same condition. */
  lemma SealedForRfcIff(s: int)
    requires 0 <= s <= (WORDS - 1) * FFFF
    ensures 0 <= Cksum(s)
    ensures RfcAccepts(s + Cksum(s)) <==> s > 0 && s / HALF + s % HALF <= FFFF
  {
    var q, r := s / HALF, s % HALF;
    FoldOnceIs(s);
    var s' := s + Cksum(s);
    FoldAllIs(s');
    if s' > 0 {
      Predecessor(s');
      if q + r <= FFFF {
        assert s' == (q + 1) * FFFF + 0;
        SameResidue(q + 1, 0);
      } else {
        var over := if q + r == HALF then 1 else 2;
        assert s' == (q + over) * FFFF + 1;
        SameResidue(q + over, 1);
      }
    }
  }

  // The words of a header

  lemma {:induction false} SumUpdate(h: seq<int>, n: nat, i: nat, x: int)
    requires Header(h) && n <= WORDS && i < WORDS && Word(x)
    ensures Header(h[i := x])
    ensures Sum(h[i := x], n) == Sum(h, n) + if i < n then Htons(x) - Htons(h[i]) else 0
  {
    if n > 0 { SumUpdate(h, n - 1, i, x); }
  }

  /** The header with the checksum of its zeroed-field version stored in the field. */
  function Sealed(h: seq<int>): (h': seq<int>)
    requires Header(h)
    ensures Header(h')
  {
    var z := h[FIELD := 0];
    SumUpdate(h, WORDS, FIELD, 0);
    SumBound(h);
    SealedSum(Sum(z, WORDS));
    h[FIELD := Htons(Cksum(Sum(z, WORDS)))]
  }

  lemma SumBound(h: seq<int>)
    requires Header(h)
    ensures 0 <= Sum(h[FIELD := 0], WORDS) <= (WORDS - 1) * FFFF
  {
    var z := h[FIELD := 0];
    var y := h[FIELD := FFFF];
    SumUpdate(z, WORDS, FIELD, FFFF);
    assert z[FIELD := FFFF] == y;
    assert Sum(y, WORDS) <= WORDS * FFFF;
    assert Htons(FFFF) == FFFF && Htons(0) == 0;
  }

  /** Every sealed header is accepted: for all ten words, and whatever was in the field before. */
  lemma SealAccepted(h: seq<int>)
    requires Header(h)
    ensures Cksum(Sum(Sealed(h), WORDS)) == 0
    ensures forall i :: 0 <= i < WORDS && i != FIELD ==> Sealed(h)[i] == h[i]
  {
    var z := h[FIELD := 0];
    var c := Cksum(Sum(z, WORDS));
    SumBound(h);
    SealedSum(Sum(z, WORDS));
    SumUpdate(z, WORDS, FIELD, Htons(c));
    assert z[FIELD := Htons(c)] == Sealed(h);
    HtonsTwice(c);
    assert Htons(0) == 0;
  }

  // The procedures

  /** `ipcksum` of the ten words at hptr; the 32-bit sum does not overflow. */
  method IpCksum(hdr: array<int>) returns (ck: int)
    requires hdr.Length == WORDS && Header(hdr[..])
    ensures ck == Cksum(Sum(hdr[..], WORDS)) && Word(ck)
  {
    var cksum := 0;
    for i := 0 to WORDS
      invariant cksum == Sum(hdr[..], i)
    {
      var word := hdr[i];
      cksum := cksum + Htons(word);
    }
    cksum := cksum + cksum / HALF;
    cksum := FFFF - cksum % HALF;
    if cksum == FFFF {
      cksum := 0;
    }
    return cksum;
  }

  /** The part of `ip_out` that seals the header. */
  method Seal(hdr: array<int>)
    requires hdr.Length == WORDS && Header(hdr[..])
    modifies hdr
    ensures hdr[..] == Sealed(old(hdr[..])) && Cksum(Sum(hdr[..], WORDS)) == 0
  {
    ghost var h := hdr[..];
    SealAccepted(h);
    hdr[FIELD] := 0;
    assert hdr[..] == h[FIELD := 0];
    var cksum := IpCksum(hdr);
    hdr[FIELD] := Htons(cksum);
    assert hdr[..] == Sealed(h);
  }

  /** The test with which `ip_in` begins. */
  method Verify(hdr: array<int>) returns (ok: bool)
    requires hdr.Length == WORDS && Header(hdr[..])
    ensures var s := Sum(hdr[..], WORDS);
            ok <==> s % FFFF == 0 || s / HALF + s % HALF == HALF
  {
    var ck := IpCksum(hdr);
    AcceptsIff(Sum(hdr[..], WORDS));
    return ck == 0;
  }
}
