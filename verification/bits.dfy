// Bitwise operators on unsigned words, written out bit by bit, and the facts
// about masks, tags and powers of two that the ring buffers and the DMA
// address scheme rely on.
module Bits {
  function Pow2(k: nat): (r: nat)
    ensures r >= 1
  {
    if k == 0 then 1 else 2 * Pow2(k - 1)
  }

  // The operator `&`.
  function BitAnd(a: nat, b: nat): nat {
    if a == 0 || b == 0 then 0
    else 2 * BitAnd(a / 2, b / 2) + (if a % 2 == 1 && b % 2 == 1 then 1 else 0)
  }

  // The operator `^`.
  function BitXor(a: nat, b: nat): nat {
    if a == 0 then b
    else if b == 0 then a
    else 2 * BitXor(a / 2, b / 2) + (if a % 2 != b % 2 then 1 else 0)
  }

  // The operator `|`.
  function BitOr(a: nat, b: nat): nat {
    if a == 0 then b
    else if b == 0 then a
    else 2 * BitOr(a / 2, b / 2) + (if a % 2 == 1 || b % 2 == 1 then 1 else 0)
  }

  lemma MulNonNegative(a: int, b: int)
    requires a >= 0 && b >= 0
    ensures a * b >= 0
  {
  }

  lemma MulAtLeast(d: int, x: int)
    requires d > 0 && x != 0
    ensures d * x >= d || d * x <= -d
  {
    if x >= 1 {
      MulNonNegative(d, x - 1);
      assert d * (x - 1) == d * x - d;
    } else {
      MulNonNegative(d, -1 - x);
      assert d * (-1 - x) == -d - d * x;
    }
  }

  lemma DivModUnique(x: int, d: int, q: int, r: int)
    requires 0 < d && 0 <= r < d && x == d * q + r
    ensures x / d == q && x % d == r
  {
    var q', r' := x / d, x % d;
    assert d * (q - q') == r' - r;
    if q != q' {
      MulAtLeast(d, q - q');
      assert false;
    }
  }

  // Masking with 2^k - 1 keeps what is below 2^k and turns 2^k itself to 0.
  lemma {:induction false} MaskKeeps(x: nat, k: nat)
    requires x < Pow2(k)
    ensures BitAnd(x, Pow2(k) - 1) == x
  {
    hide BitAnd;
    if k > 0 {
      var p := Pow2(k - 1);
      assert Pow2(k) - 1 == 2 * (p - 1) + 1 && x / 2 < p;
      BitAndOdd(x, p - 1);
      MaskKeeps(x / 2, k - 1);
    } else {
      BitAndNone(x);
    }
  }

  lemma BitAndNone(x: nat)
    ensures BitAnd(x, 0) == 0
  {
  }

  lemma BitAndOdd(x: nat, m: nat)
    ensures BitAnd(x, 2 * m + 1) == 2 * BitAnd(x / 2, m) + x % 2
  {
    var y := 2 * m + 1;
    assert y / 2 == m && y % 2 == 1;
  }

  ghost predicate IsPowerOfTwo(n: nat) {
    exists k: nat :: n == Pow2(k)
  }

  lemma {:induction false} PowerIsIsolated(k: nat)
    ensures BitAnd(Pow2(k), Pow2(k) - 1) == 0
  {
    hide BitAnd;
    if k > 0 {
      var p := Pow2(k - 1);
      assert Pow2(k) - 1 == 2 * (p - 1) + 1;
      BitAndOdd(2 * p, p - 1);
      PowerIsIsolated(k - 1);
    } else {
      BitAndNone(1);
    }
  }

  // The test `n & (n - 1) == 0` accepts exactly the powers of two.
  lemma {:induction false} PowerOfTwoTest(n: nat)
    requires n > 0
    ensures BitAnd(n, n - 1) == 0 <==> IsPowerOfTwo(n)
  {
    if IsPowerOfTwo(n) {
      var k: nat :| n == Pow2(k);
      PowerIsIsolated(k);
    }
    if BitAnd(n, n - 1) == 0 {
      IsolatedIsPower(n);
    }
  }

  lemma {:induction false} BitAndSelf(a: nat)
    ensures BitAnd(a, a) == a
  {
    if a > 0 {
      BitAndSelf(a / 2);
    }
  }

  lemma {:induction false} IsolatedIsPower(n: nat)
    requires n > 0 && BitAnd(n, n - 1) == 0
    ensures IsPowerOfTwo(n)
  {
    if n == 1 {
      assert n == Pow2(0);
    } else if n % 2 == 1 {
      assert (n - 1) / 2 == n / 2;
      BitAndSelf(n / 2);
    } else {
      assert (n - 1) / 2 == n / 2 - 1;
      IsolatedIsPower(n / 2);
      var k: nat :| n / 2 == Pow2(k);
      assert n == Pow2(k + 1);
    }
  }

  lemma {:induction false} XorSelf(a: nat)
    ensures BitXor(a, a) == 0
  {
    if a > 0 {
      XorSelf(a / 2);
    }
  }

  // `(a ^ b) ^ b == a`: toggling the same bits twice restores the word.
  lemma {:induction false} XorTwice(a: nat, b: nat)
    ensures BitXor(BitXor(a, b), b) == a
  {
    if a == 0 {
      XorSelf(b);
    } else if b != 0 {
      XorTwice(a / 2, b / 2);
      var x := BitXor(a, b);
      assert x / 2 == BitXor(a / 2, b / 2) && x % 2 == (if a % 2 != b % 2 then 1 else 0);
    }
  }

  // The operator `<<`.
  function Shl(q: nat, k: nat): nat {
    if k == 0 then q else 2 * Shl(q, k - 1)
  }

  lemma ShlFour(q: nat, k: nat)
    ensures Shl(q, k + 4) == 16 * Shl(q, k)
  {
    assert Shl(q, k + 2) == 4 * Shl(q, k);
    assert Shl(q, k + 4) == 4 * Shl(q, k + 2);
  }

  // The operators act separately on the bits from position k up and on the
  // bits below it, when the second operand has no bit below k.
  lemma {:induction false} SplitAt(q: nat, r: nat, t: nat, k: nat)
    requires r < Pow2(k)
    ensures BitAnd(Shl(q, k) + r, Shl(t, k)) == Shl(BitAnd(q, t), k)
    ensures BitOr(Shl(q, k) + r, Shl(t, k)) == Shl(BitOr(q, t), k) + r
    ensures BitXor(Shl(q, k) + r, Shl(t, k)) == Shl(BitXor(q, t), k) + r
  {
    hide BitAnd, BitOr, BitXor;
    if k > 0 {
      SplitAt(q, r / 2, t, k - 1);
      SplitStep(Shl(q, k) + r, Shl(t, k), Shl(q, k - 1) + r / 2, Shl(t, k - 1), r % 2);
    }
  }

  lemma SplitStep(x: nat, y: nat, x': nat, y': nat, b: nat)
    requires b < 2 && x == 2 * x' + b && y == 2 * y'
    ensures BitAnd(x, y) == 2 * BitAnd(x', y')
    ensures BitOr(x, y) == 2 * BitOr(x', y') + b
    ensures BitXor(x, y) == 2 * BitXor(x', y') + b
  {
    assert x / 2 == x' && x % 2 == b && y / 2 == y' && y % 2 == 0;
  }
}
