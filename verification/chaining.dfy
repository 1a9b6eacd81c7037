// Chaining checksums over several blocks, as the comment in front of `ipsum` in
// src/checksum.rs describes it, and when that gives the checksum of the whole.
module Chaining {
  import opened Words
  import opened Rfc1071

  function Concat(blocks: seq<seq<byte>>): seq<byte> {
    if blocks == [] then [] else blocks[0] + Concat(blocks[1..])
  }

  // The calls of the comment: each block's complemented checksum is the next
  // block's initial value.
  function Chain(blocks: seq<seq<byte>>, start: u16): u16 {
    if blocks == [] then Not16(start) else Chain(blocks[1..], Not16(Checksum(blocks[0], start)))
  }

  lemma {:induction false} OnesSumAppend(a: seq<byte>, b: seq<byte>, start: u16)
    requires |a| % 2 == 0
    ensures OnesSum(a + b, start) == OnesSum(b, OnesSum(a, start))
  {
    if a == [] {
      assert a + b == b;
    } else {
      assert (a + b)[2..] == a[2..] + b;
      OnesSumAppend(a[2..], b, OnesAdd(start, FirstWord(a)));
    }
  }

  // Any list of blocks, all but the last of even length.
  lemma {:induction false} ChainEven(blocks: seq<seq<byte>>, start: u16)
    requires forall i :: 0 <= i < |blocks| - 1 ==> |blocks[i]| % 2 == 0
    ensures Chain(blocks, start) == Checksum(Concat(blocks), start)
  {
    if |blocks| == 1 {
      assert Concat(blocks) == blocks[0] + [] == blocks[0];
    } else if |blocks| > 1 {
      ChainEven(blocks[1..], OnesSum(blocks[0], start));
      OnesSumAppend(blocks[0], Concat(blocks[1..]), start);
    }
  }

  // After an odd block every later byte has changed its place in its word, so
  // the later words enter the sum swapped.
  lemma {:induction false} OddShift(a: seq<byte>, b: seq<byte>)
    requires |a| % 2 == 1
    ensures StandsFor(BigSum(a + b), BigSum(a) + LittleSum(b))
  {
    if |a| == 1 {
      ShiftByOne(a[0], b);
      assert a + b == [a[0]] + b;
      assert BigSum(a) == FirstWord(a) + BigSum(Rest(a));
    } else {
      assert (a + b)[2..] == a[2..] + b;
      OddShift(a[2..], b);
      StandsForMore(FirstWord(a), BigSum(a[2..] + b), BigSum(a[2..]) + LittleSum(b));
    }
  }

  lemma {:induction false} ShiftByOne(x: byte, b: seq<byte>)
    ensures StandsFor(BigSum([x] + b), 0x100 * x as int + LittleSum(b))
    decreases |b|
  {
    var s := [x] + b;
    var high: int := x;
    if b == [] {
      assert Rest(s) == [];
      CongruentBy(0x100 * high, 0x100 * high, 0);
    } else if |b| == 1 {
      assert Rest(s) == [];
      assert Rest(b) == [];
      var low: int := b[0];
      assert FirstWord(s) == 0x100 * high + low && LittleWord(b) == low;
      assert BigSum(s) == 0x100 * high + LittleSum(b);
      CongruentBy(BigSum(s), BigSum(s), 0);
    } else {
      var y: int := b[1];
      assert Rest(s) == [b[1]] + Rest(b);
      ShiftByOne(b[1], Rest(b));
      assert BigSum(s) == 0x100 * high + b[0] + BigSum([b[1]] + Rest(b));
      assert LittleSum(b) == b[0] + 0x100 * y + LittleSum(Rest(b));
      StandsForMore(0x100 * high + b[0], BigSum([b[1]] + Rest(b)), 0x100 * y + LittleSum(Rest(b)));
    }
  }

  lemma SwapInvariant(n: nat, m: nat)
    requires Congruent(0x100 * n, m)
    ensures Congruent(n, m) <==> n % 257 == 0
  {
    var k :| DiffersBy(0x100 * n, m, k);
    if Congruent(n, m) {
      var l :| DiffersBy(n, m, l);
      assert n == 257 * (k - l);
    }
    if n % 257 == 0 {
      CongruentBy(n, m, k - n / 257);
    }
  }

  // The comment promises chaining for any two blocks. It holds exactly when the
  // first block has even length or the words of the second add up to a multiple
  // of 257.
  lemma ChainTwoExact(a: seq<byte>, b: seq<byte>, start: u16)
    ensures Chain([a, b], start) == Checksum(a + b, start) <==>
            |a| % 2 == 0 || BigSum(b) % 257 == 0
  {
    var mid := OnesSum(a, start);
    assert Chain([a, b], start) == Checksum(b, mid) by {
      assert [a, b][1..] == [b] && [b][1..] == [];
      assert Chain([b], mid) == Chain([], Not16(Checksum(b, mid)));
    }
    if |a| % 2 == 0 {
      OnesSumAppend(a, b, start);
    } else {
      OddExact(a, b, start);
    }
  }

  lemma StandsThrough(x: int, y: int, n: int)
    requires StandsFor(x, y) && StandsFor(y, n)
    ensures StandsFor(x, n)
  {
    CongruentTrans(x, y, n);
  }

  // Behind an odd block the second sum counts its bytes the other way around.
  lemma OddExact(a: seq<byte>, b: seq<byte>, start: u16)
    requires |a| % 2 == 1
    ensures OnesSum(b, OnesSum(a, start)) == OnesSum(a + b, start) <==> BigSum(b) % 257 == 0
  {
    hide OnesSum, BigSum, LittleSum, StandsFor, Congruent;
    var mid := OnesSum(a, start);
    var p, n, m := start + BigSum(a), BigSum(b), LittleSum(b);
    OnesSumStandsFor(a, start);
    OnesSumStandsFor(b, mid);
    OnesSumStandsFor(a + b, start);
    OddShift(a, b);
    SwapTotals(b);
    SwapInvariant(n, m);
    StandsForMore(n, mid, p);
    StandsThrough(OnesSum(b, mid), mid + n, p + n);
    StandsForMore(start, BigSum(a + b), BigSum(a) + m);
    StandsThrough(OnesSum(a + b, start), start + BigSum(a + b), p + m);
    OddCases(p, n, m, OnesSum(b, mid), OnesSum(a + b, start));
  }

  lemma OddCases(p: nat, n: nat, m: nat, x: u16, y: u16)
    requires n == 0 <==> m == 0
    requires StandsFor(x, p + n) && StandsFor(y, p + m)
    ensures x == y <==> Congruent(n, m)
  {
    var k :| DiffersBy(x, p + n, k);
    var l :| DiffersBy(y, p + m, l);
    if x == y {
      CongruentBy(n, m, l - k);
    }
  }

  // A concrete failure of the promise: one byte followed by one byte.
  lemma ChainOddFails()
    ensures Chain([[1], [2]], 0) != Checksum([1, 2], 0)
  {
    assert BigSum([2]) == 0x200;
    assert [1] + [2] == [1, 2];
    ChainTwoExact([1], [2], 0);
  }
}
