// The Internet checksum as sections 1 and 2 of RFC 1071 define it: the
// complement of the one's-complement sum of the big-endian 16-bit words.
// Beside the definition: its value modulo 2^16 - 1, the byte-order
// independence of section 2 (B), and the verification rule that the comment in
// front of `ipsum` in src/checksum.rs promises.
module Rfc1071 {
  import opened Words

  function Not16(x: u16): u16 { 0xffff - x }

  function Swap16(x: u16): u16 { (x % 0x100) * 0x100 + x / 0x100 }

  // One's-complement addition: the carry out of bit 15 is added back in.
  function OnesAdd(a: u16, b: u16): u16 {
    var sum := a + b;
    if sum >= 0x1_0000 then sum - 0x1_0000 + 1 else sum
  }

  // The first 16-bit word in network order; an odd last byte is padded by zero.
  function FirstWord(s: seq<byte>): u16
    requires s != []
  {
    var high: int, low: int := s[0], if |s| > 1 then s[1] else 0;
    high * 0x100 + low
  }

  // The same two bytes as a little-endian machine loads them.
  function LittleWord(s: seq<byte>): u16
    requires s != []
  {
    var low: int, high: int := s[0], if |s| > 1 then s[1] else 0;
    low + high * 0x100
  }

  function Rest(s: seq<byte>): seq<byte>
    requires s != []
  {
    if |s| > 1 then s[2..] else []
  }

  function OnesSum(s: seq<byte>, start: u16): u16
    decreases |s|
  {
    if s == [] then start else OnesSum(Rest(s), OnesAdd(start, FirstWord(s)))
  }

  function Checksum(s: seq<byte>, start: u16): u16 {
    Not16(OnesSum(s, start))
  }

  // ---- Plain sums, and when a number stands for one of them ----

  function BigSum(s: seq<byte>): nat
    decreases |s|
  {
    if s == [] then 0 else FirstWord(s) + BigSum(Rest(s))
  }

  function LittleSum(s: seq<byte>): nat
    decreases |s|
  {
    if s == [] then 0 else LittleWord(s) + LittleSum(Rest(s))
  }

  ghost predicate DiffersBy(x: int, y: int, k: int) {
    x == y + 0xffff * k
  }

  // Equal modulo 2^16 - 1.
  ghost predicate Congruent(x: int, y: int) {
    exists k :: DiffersBy(x, y, k)
  }

  // `x` stands for the plain sum `n`: congruent, and zero only for an all-zero
  // sum. This is what tells the two zeros of one's complement apart.
  ghost predicate StandsFor(x: int, n: int) {
    Congruent(x, n) && (x == 0 <==> n == 0)
  }

  lemma StandsForUnique(x: u16, y: u16, n: nat)
    requires StandsFor(x, n) && StandsFor(y, n)
    ensures x == y
  {
  }

  lemma CongruentBy(x: int, y: int, k: int)
    requires x == y + 0xffff * k
    ensures Congruent(x, y) && Congruent(y, x)
  {
    assert DiffersBy(x, y, k) && DiffersBy(y, x, -k);
  }

  lemma CongruentSum(a: int, b: int, c: int, d: int)
    requires Congruent(a, b) && Congruent(c, d)
    ensures Congruent(a + c, b + d)
  {
    var k :| DiffersBy(a, b, k);
    var l :| DiffersBy(c, d, l);
    CongruentBy(a + c, b + d, k + l);
  }

  lemma CongruentTrans(a: int, b: int, c: int)
    requires Congruent(a, b) && Congruent(b, c)
    ensures Congruent(a, c) && Congruent(c, a)
  {
    var k :| DiffersBy(a, b, k);
    var l :| DiffersBy(b, c, l);
    CongruentBy(a, c, k + l);
  }

  lemma CongruentScale(a: int, b: int)
    requires Congruent(a, b)
    ensures Congruent(0x100 * a, 0x100 * b)
  {
    var k :| DiffersBy(a, b, k);
    CongruentBy(0x100 * a, 0x100 * b, 0x100 * k);
  }

  lemma StandsForMore(w: nat, x: nat, n: nat)
    requires StandsFor(x, n)
    ensures StandsFor(w + x, w + n)
  {
    CongruentBy(w, w, 0);
    CongruentSum(w, w, x, n);
  }

  lemma {:induction false} OnesSumStandsFor(s: seq<byte>, start: u16)
    ensures StandsFor(OnesSum(s, start), start + BigSum(s))
    decreases |s|
  {
    if s == [] {
      CongruentBy(start, start, 0);
    } else {
      var w, r := FirstWord(s), BigSum(Rest(s));
      var next := OnesAdd(start, w);
      OnesSumStandsFor(Rest(s), next);
      CongruentBy(next, start + w, if start + w >= 0x1_0000 then -1 else 0);
      CongruentBy(r, r, 0);
      CongruentSum(next, start + w, r, r);
      CongruentTrans(OnesSum(s, start), next + r, start + w + r);
    }
  }

  lemma SwapCongruence(w: u16)
    ensures Congruent(0x100 * Swap16(w), w)
    ensures Congruent(0x100 * w, Swap16(w))
    ensures Swap16(w) == 0 <==> w == 0
  {
    var l, h := w % 0x100, w / 0x100;
    CongruentBy(0x100 * Swap16(w), w, l);
    CongruentBy(0x100 * w, Swap16(w), h);
  }

  lemma SwappedWord(s: seq<byte>)
    requires s != []
    ensures Swap16(FirstWord(s)) == LittleWord(s)
  {
  }

  lemma {:induction false} SwapTotals(s: seq<byte>)
    ensures Congruent(0x100 * LittleSum(s), BigSum(s))
    ensures Congruent(0x100 * BigSum(s), LittleSum(s))
    ensures LittleSum(s) == 0 <==> BigSum(s) == 0
    decreases |s|
  {
    if s == [] {
      CongruentBy(0, 0, 0);
    } else {
      var w: int, v: int, r := FirstWord(s), LittleWord(s), Rest(s);
      SwapTotals(r);
      SwapCongruence(w);
      SwappedWord(s);
      CongruentSum(0x100 * v, w, 0x100 * LittleSum(r), BigSum(r));
      CongruentSum(0x100 * w, v, 0x100 * BigSum(r), LittleSum(r));
    }
  }

  // Section 2 (B): a sum taken over little-endian words, from the swapped
  // start value, is the byte-swapped network-order sum.
  lemma ByteOrderIndependence(s: seq<byte>, start: u16, f: u16)
    requires StandsFor(f, Swap16(start) + LittleSum(s))
    ensures Swap16(f) == OnesSum(s, start)
    ensures Swap16(Not16(f)) == Checksum(s, start)
  {
    hide Congruent, Swap16, Not16, BigSum, LittleSum, OnesSum;
    var a: int, n, b, swapped := Swap16(start), LittleSum(s), BigSum(s), Swap16(f);
    SwapTotals(s);
    SwapCongruence(start);
    SwapCongruence(f);
    CongruentScale(f, a + n);
    CongruentSum(0x100 * a, start, 0x100 * n, b);
    CongruentTrans(0x100 * f, 0x100 * (a + n), start + b);
    CongruentTrans(start + b, 0x100 * f, swapped);
    OnesSumStandsFor(s, start);
    StandsForUnique(swapped, OnesSum(s, start), start + b);
    SwapNot(f);
  }

  lemma SwapNot(f: u16)
    ensures Swap16(Not16(f)) == Not16(Swap16(f))
  {
    var l, h := f % 0x100, f / 0x100;
    assert f == 0x100 * h + l && Not16(f) == 0x100 * (0xff - h) + (0xff - l);
    assert Not16(f) / 0x100 == 0xff - h && Not16(f) % 0x100 == 0xff - l;
  }

  // ---- Verification ----

  // The zero test of the comment is exact but for the two zeros: a block of
  // checksum 0 is also accepted with 0xffff.
  lemma VerificationExact(s: seq<byte>, v: u16)
    ensures Checksum(s, v) == 0 <==>
            v == Checksum(s, 0) || (Checksum(s, 0) == 0 && v == 0xffff)
  {
    OnesSumStandsFor(s, 0);
    OnesSumStandsFor(s, v);
    var f, g, n := OnesSum(s, 0), OnesSum(s, v), BigSum(s);
    var k :| DiffersBy(f, n, k);
    var l :| DiffersBy(g, v + n, l);
    assert g == v + f + 0xffff * (l - k);
  }

  // The checksum is the complement's zero 0xffff only on all-zero data.
  lemma {:induction false} AllOnesOnlyForZeros(s: seq<byte>)
    ensures Checksum(s, 0) == 0xffff <==> (forall i :: 0 <= i < |s| ==> s[i] == 0)
  {
    OnesSumStandsFor(s, 0);
    ZeroSum(s);
  }

  lemma {:induction false} ZeroSum(s: seq<byte>)
    ensures BigSum(s) == 0 <==> (forall i :: 0 <= i < |s| ==> s[i] == 0)
    decreases |s|
  {
    if s != [] {
      ZeroSum(Rest(s));
      assert forall i :: 2 <= i < |s| ==> s[i] == Rest(s)[i - 2];
      assert forall i :: 0 <= i < |Rest(s)| ==> Rest(s)[i] == s[i + 2];
      assert FirstWord(s) == 0 <==> s[0] == 0 && (|s| > 1 ==> s[1] == 0);
    }
  }
}
