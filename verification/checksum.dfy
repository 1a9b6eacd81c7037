// The three checksum routines of src/checksum.rs: the portable reference and
// the x86_64 and aarch64 register programs, instruction by instruction, over
// bounded machine words with an explicit carry flag.
module Checksum {
  import opened Words
  import opened Rfc1071
  import Bits

  // Rust slices never exceed isize::MAX bytes.
  const MAX_SLICE := 0x7fff_ffff_ffff_ffff

  // ---- Instructions: the result register and the carry flag ----

  function Adc64(a: u64, b: u64, carry: bit): (u64, bit) {
    var sum: int := a + b + carry;
    if sum >= 0x1_0000_0000_0000_0000 then (sum - 0x1_0000_0000_0000_0000, 1) else (sum, 0)
  }

  function Adc32(a: u32, b: u32, carry: bit): (u32, bit) {
    var sum: int := a + b + carry;
    if sum >= 0x1_0000_0000 then (sum - 0x1_0000_0000, 1) else (sum, 0)
  }

  function Adc16(a: u16, b: u16, carry: bit): (u16, bit) {
    var sum: int := a + b + carry;
    if sum >= 0x1_0000 then (sum - 0x1_0000, 1) else (sum, 0)
  }

  // `jl` and `b.gt` compare signed.
  function Signed(x: u64): int {
    if x > MAX_SLICE then x - 0x1_0000_0000_0000_0000 else x
  }

  // Bit `k`, as `tbz` tests it.
  function BitOf(x: nat, k: nat): bit {
    if k == 0 then x % 2 else BitOf(x / 2, k - 1)
  }

  // The low `k` bits.
  function LowBits(x: nat, k: nat): nat {
    if k == 0 then 0 else x % 2 + 2 * LowBits(x / 2, k - 1)
  }

  // A little-endian load.
  function Little(s: seq<byte>): nat {
    if s == [] then 0 else s[0] as int + 0x100 * Little(s[1..])
  }

  function Load(data: seq<byte>, ptr: nat, n: nat): (word: u64)
    requires n <= 8 && ptr + n <= |data|
    ensures n == 2 ==> word < 0x1_0000
    ensures n == 4 ==> word < 0x1_0000_0000
  {
    LittleBound(data[ptr..ptr + n]);
    Little(data[ptr..ptr + n])
  }

  lemma {:induction false} LittleBound(s: seq<byte>)
    requires |s| <= 8
    ensures Little(s) < 0x1_0000_0000_0000_0000
    ensures |s| <= 4 ==> Little(s) < 0x1_0000_0000
    ensures |s| <= 2 ==> Little(s) < 0x1_0000
  {
    if s != [] {
      LittleBelow(s, 0x100_0000_0000_0000 * 0x100);
      if |s| <= 4 { LittleBelow(s, 0x1_0000_0000); }
      if |s| <= 2 { LittleBelow(s, 0x1_0000); }
    }
  }

  ghost function Bytes(n: nat): (r: nat)
    ensures r >= 1
  {
    if n == 0 then 1 else 0x100 * Bytes(n - 1)
  }

  lemma {:induction false} LittleBelow(s: seq<byte>, bound: nat)
    requires |s| <= 8
    requires bound == 0x1_0000_0000_0000_0000 || (bound == 0x1_0000_0000 && |s| <= 4) || (bound == 0x1_0000 && |s| <= 2)
    ensures Little(s) < bound
  {
    LittleBytes(s);
    BytesMonotone(|s|, if bound == 0x1_0000_0000_0000_0000 then 8 else if bound == 0x1_0000_0000 then 4 else 2);
    assert Bytes(2) == 0x100 * (0x100 * Bytes(0)) == 0x1_0000;
    assert Bytes(4) == 0x100 * (0x100 * Bytes(2)) == 0x1_0000_0000;
    assert Bytes(6) == 0x100 * (0x100 * Bytes(4));
    assert Bytes(8) == 0x100 * (0x100 * Bytes(6)) == 0x1_0000_0000_0000_0000;
  }

  lemma {:induction false} LittleBytes(s: seq<byte>)
    ensures Little(s) < Bytes(|s|)
  {
    if s != [] {
      LittleBytes(s[1..]);
    }
  }

  lemma {:induction false} BytesMonotone(m: nat, n: nat)
    requires m <= n
    ensures Bytes(m) <= Bytes(n)
    decreases n
  {
    if m < n {
      BytesMonotone(m, n - 1);
    }
  }

  // A load of any width stands for the sum of its 16-bit words.
  lemma {:induction false} LittleStandsFor(s: seq<byte>)
    ensures StandsFor(Little(s), LittleSum(s))
  {
    if s == [] {
      CongruentBy(0, 0, 0);
    } else if |s| == 1 {
      var low: int := s[0];
      assert Little(s[1..]) == 0 && Rest(s) == [];
      assert Little(s) == low == LittleSum(s);
      CongruentBy(low, low, 0);
    } else {
      assert s[1..][1..] == s[2..];
      LittleStandsFor(s[2..]);
      var h := Little(s[2..]);
      assert Little(s[1..]) == s[1] as int + 0x100 * h;
      var low: int, next: int := s[0], s[1];
      var word := low + 0x100 * next;
      assert Little(s) == word + 0x1_0000 * h;
      assert LittleWord(s) == word;
      WordAndHigher(word, h, LittleSum(s[2..]));
    }
  }

  lemma WordAndHigher(word: u16, high: nat, n: nat)
    requires StandsFor(high, n)
    ensures StandsFor(word + 0x1_0000 * high, word + n)
  {
    CongruentBy(word + 0x1_0000 * high, word + high, high);
    StandsForMore(word, high, n);
    CongruentTrans(word + 0x1_0000 * high, word + high, word + n);
  }

  lemma {:induction false} LittleSumAppend(a: seq<byte>, b: seq<byte>)
    requires |a| % 2 == 0
    ensures LittleSum(a + b) == LittleSum(a) + LittleSum(b)
  {
    if a == [] {
      assert a + b == b;
    } else {
      assert (a + b)[2..] == a[2..] + b;
      LittleSumAppend(a[2..], b);
    }
  }

  // ---- The accumulator ----

  // The carry flag is an end-around bit not yet added. It is never set on an
  // accumulator of all ones, so adding it in cannot carry again.
  ghost predicate Accumulated(acc: u64, carry: bit, n: nat) {
    && (carry == 1 ==> acc <= 0x1_0000_0000_0000_0000 - 2)
    && StandsFor(acc + carry, n)
  }

  lemma EmptySum(data: seq<byte>, acc: u16)
    ensures Accumulated(acc, 0, acc + LittleSum(data[..0]))
  {
    CongruentBy(acc, acc, 0);
  }

  lemma AdcAccumulates(acc: u64, word: u64, carry: bit, n: nat, m: nat)
    requires Accumulated(acc, carry, n) && StandsFor(word, m)
    ensures var (acc', carry') := Adc64(acc, word, carry); Accumulated(acc', carry', n + m)
  {
    var (acc', carry') := Adc64(acc, word, carry);
    var out: int := carry';
    CongruentBy(acc' + carry', acc + carry + word, -out * 0x1_0001_0001_0001);
    CongruentSum(acc + carry, n, word, m);
    CongruentTrans(acc' + carry', acc + carry + word, n + m);
  }

  // Adding in the carry leaves none behind.
  lemma CarryIn(acc: u64, carry: bit, n: nat)
    requires Accumulated(acc, carry, n)
    ensures Adc64(acc, 0, carry) == (acc + carry, 0)
    ensures Accumulated(Adc64(acc, 0, carry).0, 0, n)
  {
  }

  // One add-with-carry of the `k` bytes at `ptr`.
  lemma AdcLoad(data: seq<byte>, ptr: nat, k: nat, start: nat, acc: u64, carry: bit)
    requires ptr % 2 == 0 && k <= 8 && ptr + k <= |data|
    requires Accumulated(acc, carry, start + LittleSum(data[..ptr]))
    ensures var (acc', carry') := Adc64(acc, Load(data, ptr, k), carry);
            Accumulated(acc', carry', start + LittleSum(data[..ptr + k]))
  {
    hide Accumulated, StandsFor, LittleSum, Little, Adc64;
    var part := data[ptr..ptr + k];
    LittleStandsFor(part);
    LittleSumAppend(data[..ptr], part);
    assert data[..ptr + k] == data[..ptr] + part;
    AdcAccumulates(acc, Load(data, ptr, k), carry, start + LittleSum(data[..ptr]), LittleSum(part));
  }

  // ---- The folds ----

  // Both folds as the x86_64 program runs them.
  function Folded32(acc: u64, carry: bit): u32 {
    var (sum, c) := Adc32(acc % 0x1_0000_0000, acc / 0x1_0000_0000, carry);
    Adc32(sum, 0, c).0
  }

  function Folded16(x: u32): u16 {
    var (sum, c) := Adc16(x % 0x1_0000, x / 0x1_0000, 0);
    Adc16(sum, 0, c).0
  }

  // Neither fold loses a carry.
  lemma Fold32(acc: u64, carry: bit, n: nat)
    requires Accumulated(acc, carry, n)
    ensures var (sum, c) := Adc32(acc % 0x1_0000_0000, acc / 0x1_0000_0000, carry);
            Adc32(sum, 0, c) == (sum + c, 0)
    ensures StandsFor(Folded32(acc, carry), n)
  {
    var low: int, high: int := acc % 0x1_0000_0000, acc / 0x1_0000_0000;
    var (sum, c) := Adc32(low, high, carry);
    CongruentBy(sum + c, acc + carry, -0x1_0001 * (high + c));
    CongruentTrans(sum + c, acc + carry, n);
  }

  lemma Fold16(x: u32, n: nat)
    requires StandsFor(x, n)
    ensures var (sum, c) := Adc16(x % 0x1_0000, x / 0x1_0000, 0);
            Adc16(sum, 0, c) == (sum + c, 0)
    ensures StandsFor(Folded16(x), n)
  {
    var low: int, high: int := x % 0x1_0000, x / 0x1_0000;
    var (sum, c) := Adc16(low, high, 0);
    CongruentBy(sum + c, x, -(high + c));
    CongruentTrans(sum + c, x, n);
  }

  // The aarch64 program folds the lower half by two shifted adds instead.
  lemma TwoAdds(x: u32)
    ensures var y: u32 := (x % 0x1_0000 + x / 0x1_0000) % 0x1_0000_0000;
            ((y + y / 0x1_0000) % 0x1_0000_0000) % 0x1_0000 == Folded16(x)
  {
    hide Folded16, Adc16;
    var y: int := x % 0x1_0000 + x / 0x1_0000;
    var (sum, c) := Adc16(x % 0x1_0000, x / 0x1_0000, 0);
    FoldedIs(x);
    CarryRound(y, sum, c);
    assert y % 0x1_0000_0000 == y;
  }

  lemma FoldedIs(x: u32)
    ensures var (sum, c) := Adc16(x % 0x1_0000, x / 0x1_0000, 0);
            x % 0x1_0000 + x / 0x1_0000 == sum + 0x1_0000 * c && Folded16(x) == sum + c < 0x1_0000
  {
  }

  lemma CarryRound(y: int, sum: int, carry: int)
    requires 0 <= carry <= 1 && 0 <= sum && sum + carry < 0x1_0000 && y == sum + 0x1_0000 * carry
    ensures ((y + y / 0x1_0000) % 0x1_0000_0000) % 0x1_0000 == sum + carry
  {
    assert y / 0x1_0000 == carry;
    assert y + carry == 0x1_0000 * carry + (sum + carry);
  }

  lemma Invert(x: u32)
    ensures (0x1_0000_0000 - 1 - x) % 0x1_0000 == Not16(x % 0x1_0000)
  {
    var low: int, high: int := x % 0x1_0000, x / 0x1_0000;
    assert 0x1_0000_0000 - 1 - x == 0x1_0000 * (0xffff - high) + (0xffff - low);
  }

  lemma InvertWide(x: u64)
    requires x < 0x1_0000
    ensures (0x1_0000_0000_0000_0000 - 1 - x) % 0x1_0000 == Not16(x)
  {
    assert 0x1_0000_0000_0000_0000 - 1 - x == 0x1_0000 * 0xffff_ffff_ffff + (0xffff - x);
  }

  // ---- The programs ----

  lemma SwapZero()
    ensures Swap16(0) == 0
  {
  }

  // Reference implementation. The u64 sum holds up to 2^48 words.
  method ChecksumRust(data: seq<byte>, length: nat) returns (sum: u16)
    requires length <= |data| && length <= 0x2_0000_0000_0000
    ensures sum == Rfc1071.Checksum(data[..length], 0)
  {
    hide StandsFor, Swap16, Not16, Checksum, LittleSum;
    SwapZero();
    var csum := SumRust(data, length);
    csum := FoldRust(csum);
    ByteOrderIndependence(data[..length], 0, csum);
    InvertWide(csum);
    sum := Swap16((0x1_0000_0000_0000_0000 - 1 - csum) % 0x1_0000);
  }

  lemma NothingSummed(data: seq<byte>)
    ensures LittleSum(data[..0]) == 0
  {
  }

  // The accumulating loop and the odd byte.
  method SumRust(data: seq<byte>, length: nat) returns (csum: u64)
    requires length <= |data| && length <= 0x2_0000_0000_0000
    ensures csum == LittleSum(data[..length])
  {
    hide LittleSum, Load;
    NothingSummed(data);
    csum := 0;
    var i := length;
    while i > 1
      invariant 0 <= i <= length && (length - i) % 2 == 0
      invariant csum == LittleSum(data[..length - i])
      invariant 2 * csum <= 0xffff * (length - i)
    {
      var word := Load(data, length - i, 2);
      AppendWord(data, length - i);
      csum := csum + word;
      i := i - 2;
    }
    if i == 1 {
      AppendByte(data, length - 1);
      csum := csum + data[length - 1];
    }
  }

  // Folds the carries until none is left.
  method FoldRust(sum: u64) returns (csum: u64)
    ensures csum < 0x1_0000 && StandsFor(csum, sum)
  {
    csum := sum;
    CongruentBy(csum, sum, 0);
    while true
      invariant StandsFor(csum, sum)
      decreases csum
    {
      var carry: int := csum / 0x1_0000;
      if carry == 0 {
        break;
      }
      CongruentBy(csum % 0x1_0000 + carry, csum, -carry);
      CongruentTrans(csum % 0x1_0000 + carry, csum, sum);
      csum := csum % 0x1_0000 + carry;
    }
  }

  lemma AppendWord(data: seq<byte>, at: nat)
    requires at % 2 == 0 && at + 2 <= |data|
    ensures LittleSum(data[..at + 2]) == LittleSum(data[..at]) + Load(data, at, 2)
  {
    var part := data[at..at + 2];
    LittleSumAppend(data[..at], part);
    assert data[..at + 2] == data[..at] + part;
    assert Rest(part) == [] && part[1..][1..] == [];
    assert Little(part[1..]) == part[1] as int;
  }

  lemma AppendByte(data: seq<byte>, at: nat)
    requires at % 2 == 0 && at < |data|
    ensures LittleSum(data[..at + 1]) == LittleSum(data[..at]) + data[at]
  {
    var part := data[at..at + 1];
    LittleSumAppend(data[..at], part);
    assert data[..at + 1] == data[..at] + part;
    assert Rest(part) == [];
  }

  // `adc` with a memory operand of `k` bytes, zero-extended; `add` and `adds`
  // when the carry operand is 0.
  method AdcMemory(data: seq<byte>, ptr: nat, k: nat, ghost start: nat, acc: u64, carry: bit)
    returns (acc': u64, carry': bit)
    requires ptr % 2 == 0 && k <= 8 && ptr + k <= |data|
    requires Accumulated(acc, carry, start + LittleSum(data[..ptr]))
    ensures Accumulated(acc', carry', start + LittleSum(data[..ptr + k]))
  {
    AdcLoad(data, ptr, k, start, acc, carry);
    var sum: int := acc + Load(data, ptr, k) + carry;
    acc', carry' := sum % 0x1_0000_0000_0000_0000, sum / 0x1_0000_0000_0000_0000;
  }

  // `adc` with zero.
  method AdcZero(acc: u64, carry: bit, ghost n: nat) returns (acc': u64)
    requires Accumulated(acc, carry, n)
    ensures Accumulated(acc', 0, n)
  {
    CarryIn(acc, carry, n);
    acc' := (acc + carry) % 0x1_0000_0000_0000_0000;
  }

  // The body of both 32-byte loops: four chained 64-bit adds, then the carry.
  method Add32Bytes(data: seq<byte>, ptr: nat, ghost start: nat, acc: u64) returns (acc': u64)
    requires ptr % 2 == 0 && ptr + 32 <= |data|
    requires Accumulated(acc, 0, start + LittleSum(data[..ptr]))
    ensures Accumulated(acc', 0, start + LittleSum(data[..ptr + 32]))
  {
    hide Accumulated, LittleSum;
    var carry: bit;
    acc', carry := AdcMemory(data, ptr, 8, start, acc, 0);
    acc', carry := AdcMemory(data, ptr + 8, 8, start, acc', carry);
    acc', carry := AdcMemory(data, ptr + 16, 8, start, acc', carry);
    acc', carry := AdcMemory(data, ptr + 24, 8, start, acc', carry);
    acc' := AdcZero(acc', carry, start + LittleSum(data[..ptr + 32]));
  }

  method ChecksumX86(data: seq<byte>, length: nat, initial: u16) returns (sum: u16)
    requires length <= |data| <= MAX_SLICE
    ensures sum == Rfc1071.Checksum(data[..length], initial)
  {
    hide Accumulated, LittleSum;
    var acc: u64 := Swap16(initial);
    var size: u64, ptr := length, 0;
    ghost var start: nat := acc;
    EmptySum(data, acc);
    while !(Signed(size) < 32)
      invariant ptr + size == length && ptr % 2 == 0
      invariant Accumulated(acc, 0, start + LittleSum(data[..ptr]))
      decreases size
    {
      acc := Add32Bytes(data, ptr, start, acc);
      size, ptr := size - 32, ptr + 32;
    }
    acc := TailX86(data, ptr, size, start, acc);
    sum := FoldX86(acc, data[..length], initial);
  }

  // Branches 2 to 6.
  method TailX86(data: seq<byte>, from: nat, left: u64, ghost start: nat, sum: u64) returns (acc: u64)
    requires from % 2 == 0 && left < 32 && from + left <= |data|
    requires Accumulated(sum, 0, start + LittleSum(data[..from]))
    ensures Accumulated(acc, 0, start + LittleSum(data[..from + left]))
  {
    hide Accumulated, LittleSum;
    var size: u64, ptr := left, from;
    acc := sum;
    if !(Signed(size) < 16) {
      acc := Add16Bytes(data, ptr, start, acc);
      size, ptr := size - 16, ptr + 16;
    }
    acc, size, ptr := BranchX86(data, ptr, size, 8, start, acc);
    acc, size, ptr := BranchX86(data, ptr, size, 4, start, acc);
    acc, size, ptr := BranchX86(data, ptr, size, 2, start, acc);
    acc, size, ptr := BranchX86(data, ptr, size, 1, start, acc);
  }

  method Add16Bytes(data: seq<byte>, ptr: nat, ghost start: nat, acc: u64) returns (acc': u64)
    requires ptr % 2 == 0 && ptr + 16 <= |data|
    requires Accumulated(acc, 0, start + LittleSum(data[..ptr]))
    ensures Accumulated(acc', 0, start + LittleSum(data[..ptr + 16]))
  {
    hide Accumulated, LittleSum;
    var carry: bit;
    acc', carry := AdcMemory(data, ptr, 8, start, acc, 0);
    acc', carry := AdcMemory(data, ptr + 8, 8, start, acc', carry);
    acc' := AdcZero(acc', carry, start + LittleSum(data[..ptr + 16]));
  }

  // A single-load branch: taken when at least `k` bytes are left; `add` the
  // chunk, `adc` zero.
  method BranchX86(data: seq<byte>, from: nat, left: u64, k: nat, ghost start: nat, sum: u64)
    returns (acc: u64, size: u64, ptr: nat)
    requires k == 8 || k == 4 || k == 2 || k == 1
    requires from % 2 == 0 && left < 2 * k && from + left <= |data|
    requires Accumulated(sum, 0, start + LittleSum(data[..from]))
    ensures ptr + size == from + left && size < k && (k > 1 ==> ptr % 2 == 0)
    ensures Accumulated(acc, 0, start + LittleSum(data[..ptr]))
  {
    hide Accumulated, LittleSum;
    acc, size, ptr := sum, left, from;
    if !(Signed(size) < k) {
      var carry: bit;
      acc, carry := AdcMemory(data, ptr, k, start, acc, 0);
      acc := AdcZero(acc, carry, start + LittleSum(data[..ptr + k]));
      size, ptr := size - k, ptr + k;
    }
  }

  // Branch 7: fold 64-bit into 16-bit, complement, swap.
  method FoldX86(acc: u64, ghost s: seq<byte>, ghost initial: u16) returns (sum: u16)
    requires Accumulated(acc, 0, Swap16(initial) + LittleSum(s))
    ensures sum == Rfc1071.Checksum(s, initial)
  {
    hide Accumulated, StandsFor, Folded16, Folded32, Swap16, Not16, Checksum, LittleSum;
    Fold32(acc, 0, Swap16(initial) + LittleSum(s));
    var low2 := FoldWords(acc, 0);
    Fold16(low2, Swap16(initial) + LittleSum(s));
    var half2: int := FoldHalves(low2);
    ByteOrderIndependence(s, initial, half2);
    Invert(half2);
    var inverted: u32 := 0x1_0000_0000 - 1 - half2;
    sum := Swap16(inverted % 0x1_0000);
  }

  // The 32-bit part of the fold, the same in both programs: the halves of the
  // accumulator and the carry that came in, then the carry that came out.
  method FoldWords(acc: u64, carry: bit) returns (x: u32)
    ensures x == Folded32(acc, carry)
  {
    var low: u32, high: u32 := acc % 0x1_0000_0000, acc / 0x1_0000_0000;
    var (sum, out) := Adc32(low, high, carry);
    var (sum', _) := Adc32(sum, 0, out);
    x := sum';
  }

  // The 16-bit part of the x86_64 fold.
  method FoldHalves(x: u32) returns (half: u16)
    ensures half == Folded16(x)
  {
    var (half1, carry) := Adc16(x % 0x1_0000, x / 0x1_0000, 0);
    var (half2, _) := Adc16(half1, 0, carry);
    half := half2;
  }

  method ChecksumArm(data: seq<byte>, length: nat, initial: u16) returns (sum: u16)
    requires length <= |data| <= MAX_SLICE
    ensures sum == Rfc1071.Checksum(data[..length], initial)
  {
    hide Accumulated, LittleSum;
    var size: u64, ptr := length, 0;
    var acc: u64, carry: bit := Swap16(initial), 0;
    var mod32: u64 := size - size % 32;
    ghost var start: nat := acc;
    EmptySum(data, acc);
    if mod32 != 0 {
      acc, ptr := LoopArm(data, mod32, start, acc);
    }
    LowFive(size);
    acc, carry := TailArm(data, size, ptr, start, acc);
    sum := FoldArm(acc, carry, data[..length], initial);
  }

  // Block 1: runs until `subs` leaves nothing above zero.
  method LoopArm(data: seq<byte>, blocks: u64, ghost start: nat, sum: u64)
    returns (acc: u64, ptr: nat)
    requires 0 < blocks <= |data| <= MAX_SLICE && blocks % 32 == 0
    requires Accumulated(sum, 0, start + LittleSum(data[..0]))
    ensures ptr == blocks && Accumulated(acc, 0, start + LittleSum(data[..ptr]))
  {
    hide Accumulated, LittleSum, InBlocks;
    var mod32 := blocks;
    acc, ptr := sum, 0;
    NextBlock(0, mod32);
    while true
      invariant ptr + mod32 == blocks && InBlocks(ptr, mod32) && mod32 > 0
      invariant Accumulated(acc, 0, start + LittleSum(data[..ptr]))
      decreases mod32
    {
      NextBlock(ptr, mod32);
      acc := Add32Bytes(data, ptr, start, acc);
      ptr := ptr + 32;
      mod32 := mod32 - 32;
      if !(Signed(mod32) > 0) {
        break;
      }
    }
  }

  ghost predicate InBlocks(ptr: nat, left: nat) {
    ptr % 2 == 0 && left % 32 == 0
  }

  lemma NextBlock(ptr: nat, left: nat)
    ensures ptr % 2 == 0 && left % 32 == 0 ==> InBlocks(ptr, left)
    ensures InBlocks(ptr, left) ==> ptr % 2 == 0
    ensures InBlocks(ptr, left) && left > 0 ==> left >= 32 && InBlocks(ptr + 32, left - 32)
  {
  }

  // Bit `k` of `size` says whether a chunk of 2^k bytes is left after the
  // larger ones.
  lemma {:induction false} SizeBit(size: nat, k: nat)
    ensures LowBits(size, k + 1) == LowBits(size, k) + (if BitOf(size, k) == 1 then Bits.Pow2(k) else 0)
    ensures (size - LowBits(size, k + 1)) % 2 == 0 && LowBits(size, k) <= size
  {
    if k > 0 {
      SizeBit(size / 2, k - 1);
    }
  }

  // The chunks that the program takes: 16, 8, 4, 2 and 1 bytes.
  lemma ChunkBit(size: nat, w: nat, k: nat)
    requires (w == 16 && k == 4) || (w == 8 && k == 3) || (w == 4 && k == 2) || (w == 2 && k == 1) || (w == 1 && k == 0)
    ensures LowBits(size, k + 1) == LowBits(size, k) + (if BitOf(size, k) == 1 then w else 0)
    ensures (size - LowBits(size, k + 1)) % 2 == 0 && LowBits(size, k) <= size
  {
    hide BitOf, LowBits;
    SizeBit(size, k);
    assert Bits.Pow2(1) == 2 && Bits.Pow2(2) == 4 && Bits.Pow2(3) == 8;
    assert Bits.Pow2(4) == 2 * Bits.Pow2(3);
  }

  lemma LowFive(size: nat)
    ensures LowBits(size, 5) == size % 32
  {
    var a, b, c, d, e := size / 2, size / 4, size / 8, size / 16, size / 32;
    assert a / 2 == b && b / 2 == c && c / 2 == d && d / 2 == e;
    assert LowBits(d, 1) == d % 2;
    assert LowBits(c, 2) == c % 2 + 2 * (d % 2);
    assert LowBits(b, 3) == b % 2 + 2 * LowBits(c, 2);
    assert LowBits(a, 4) == a % 2 + 2 * LowBits(b, 3);
    assert LowBits(size, 5) == size % 2 + 2 * LowBits(a, 4);
  }

  lemma NoBits(size: nat)
    ensures LowBits(size, 0) == 0
  {
  }

  // Blocks 2 to 6: each is taken by one bit of `size`, and the carry of a block
  // is the carry-in of the next one taken.
  method TailArm(data: seq<byte>, size: nat, from: nat, ghost start: nat, sum: u64)
    returns (acc: u64, carry: bit)
    requires size <= |data| && from == size - LowBits(size, 5)
    requires Accumulated(sum, 0, start + LittleSum(data[..from]))
    ensures Accumulated(acc, carry, start + LittleSum(data[..size]))
  {
    hide Accumulated, LowBits, LittleSum;
    var ptr: nat;
    acc, carry, ptr := WideArm(data, from, size, start, sum);
    acc, carry := NarrowArm(data, ptr, size, start, acc, carry);
  }

  // Blocks 2 to 4.
  method WideArm(data: seq<byte>, from: nat, size: nat, ghost start: nat, sum: u64)
    returns (acc: u64, carry: bit, ptr: nat)
    requires size <= |data| && from == size - LowBits(size, 5)
    requires Accumulated(sum, 0, start + LittleSum(data[..from]))
    ensures ptr == size - LowBits(size, 2)
    ensures Accumulated(acc, carry, start + LittleSum(data[..ptr]))
  {
    hide Accumulated, LowBits, LittleSum;
    acc, carry, ptr := PairArm(data, from, size, start, sum);
    acc, carry, ptr := BlockArm(data, ptr, size, 8, 3, start, acc, carry);
    acc, carry, ptr := BlockArm(data, ptr, size, 4, 2, start, acc, carry);
  }

  // Blocks 5 and 6.
  method NarrowArm(data: seq<byte>, from: nat, size: nat, ghost start: nat, sum: u64, c: bit)
    returns (acc: u64, carry: bit)
    requires size <= |data| && from == size - LowBits(size, 2)
    requires Accumulated(sum, c, start + LittleSum(data[..from]))
    ensures Accumulated(acc, carry, start + LittleSum(data[..size]))
  {
    hide Accumulated, LowBits, LittleSum;
    NoBits(size);
    var ptr: nat;
    acc, carry, ptr := BlockArm(data, from, size, 2, 1, start, sum, c);
    acc, carry, ptr := BlockArm(data, ptr, size, 1, 0, start, acc, carry);
  }

  // Block 2 starts a new chain with `adds`.
  method PairArm(data: seq<byte>, from: nat, size: nat, ghost start: nat, sum: u64)
    returns (acc: u64, carry: bit, ptr: nat)
    requires size <= |data| && from == size - LowBits(size, 5)
    requires Accumulated(sum, 0, start + LittleSum(data[..from]))
    ensures ptr == size - LowBits(size, 4)
    ensures Accumulated(acc, carry, start + LittleSum(data[..ptr]))
  {
    hide Accumulated, BitOf, LowBits, LittleSum;
    ChunkBit(size, 16, 4);
    acc, carry, ptr := sum, 0, from;
    if BitOf(size, 4) == 1 {
      acc, carry := AdcMemory(data, ptr, 8, start, acc, 0);
      acc, carry := AdcMemory(data, ptr + 8, 8, start, acc, carry);
      ptr := ptr + 16;
    }
  }

  // A single-load block of `w` bytes, skipped when bit `k` of `size` is clear.
  method BlockArm(data: seq<byte>, from: nat, size: nat, w: nat, k: nat,
                  ghost start: nat, sum: u64, c: bit)
    returns (acc: u64, carry: bit, ptr: nat)
    requires (w == 8 && k == 3) || (w == 4 && k == 2) || (w == 2 && k == 1) || (w == 1 && k == 0)
    requires size <= |data| && from == size - LowBits(size, k + 1)
    requires Accumulated(sum, c, start + LittleSum(data[..from]))
    ensures ptr == size - LowBits(size, k)
    ensures Accumulated(acc, carry, start + LittleSum(data[..ptr]))
  {
    hide Accumulated, BitOf, LowBits, LittleSum;
    ChunkBit(size, w, k);
    acc, carry, ptr := sum, c, from;
    if BitOf(size, k) == 1 {
      acc, carry := AdcMemory(data, ptr, w, start, acc, carry);
      ptr := ptr + w;
    }
  }

  // Block 7: the carry of the last block goes into the 32-bit fold.
  method FoldArm(acc: u64, carry: bit, ghost s: seq<byte>, ghost initial: u16) returns (sum: u16)
    requires Accumulated(acc, carry, Swap16(initial) + LittleSum(s))
    ensures sum == Rfc1071.Checksum(s, initial)
  {
    hide Accumulated, StandsFor, Folded16, Folded32, Swap16, Not16, Checksum, LittleSum;
    Fold32(acc, carry, Swap16(initial) + LittleSum(s));
    var low2 := FoldWords(acc, carry);
    Fold16(low2, Swap16(initial) + LittleSum(s));
    TwoAdds(low2);
    var tmp: u32 := low2 % 0x1_0000;
    var low3: u32 := (tmp + low2 / 0x1_0000) % 0x1_0000_0000;
    var low4: u32 := (low3 + low3 / 0x1_0000) % 0x1_0000_0000;
    ByteOrderIndependence(s, initial, low4 % 0x1_0000);
    Invert(low4);
    var inverted: u32 := 0x1_0000_0000 - 1 - low4;
    sum := Swap16(inverted % 0x1_0000);
  }

  // The dispatcher runs the program of the target it is compiled for.
  method Ipsum(data: seq<byte>, length: nat, initial: u16, x86: bool) returns (sum: u16)
    requires length <= |data| <= MAX_SLICE
    ensures sum == Rfc1071.Checksum(data[..length], initial)
  {
    if x86 {
      sum := ChecksumX86(data, length, initial);
    } else {
      sum := ChecksumArm(data, length, initial);
    }
  }
}
