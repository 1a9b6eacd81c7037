// Index arithmetic of the descriptor rings in src/ixy82599/ixgbe.rs, and the
// tag scheme that turns a packet's address into the one the device uses.
module Rings {
  import opened Bits

  // The slot `k` places after slot `i` on a ring of `n` slots.
  function Slot(i: nat, k: nat, n: nat): (r: nat)
    requires i < n && k <= n
    ensures r < n
  {
    if i + k < n then i + k else i + k - n
  }

  // How far slot `b` is ahead of slot `a`.
  function Ahead(a: nat, b: nat, n: nat): (r: nat)
    requires a < n && b < n
    ensures r < n && Slot(a, r, n) == b
  {
    if b >= a then b - a else b - a + n
  }

  function WrapRing(index: nat, ringSize: nat): nat
    requires ringSize > 0
  {
    BitAnd(index + 1, ringSize - 1)
  }

  // On a ring whose size is a power of two, the mask moves to the next slot.
  lemma WrapRingIsNext(index: nat, n: nat)
    requires IsPowerOfTwo(n) && index < n
    ensures WrapRing(index, n) == Slot(index, 1, n)
  {
    var k: nat :| n == Pow2(k);
    if index + 1 == n {
      PowerIsIsolated(k);
    } else {
      MaskKeeps(index + 1, k);
    }
  }

  lemma SlotShift(i: nat, j: nat, k: nat, n: nat)
    requires i < n && j + k <= n
    ensures Slot(Slot(i, j, n), k, n) == Slot(i, j + k, n)
  {
  }

  // No way to go, and all the way around.
  lemma SlotRound(i: nat, n: nat)
    requires i < n
    ensures Slot(i, 0, n) == i && Slot(i, n, n) == i
  {
  }

  // Different distances lead to different slots.
  lemma SlotsApart(i: nat, j: nat, k: nat, n: nat)
    requires i < n && j < n && k < n && j != k
    ensures Slot(i, j, n) != Slot(i, k, n)
  {
  }

  // Moving the far index one slot on, unless it would meet the near one.
  lemma AheadNext(a: nat, b: nat, n: nat)
    requires a < n && b < n
    ensures Slot(b, 1, n) != a <==> Ahead(a, b, n) + 1 < n
    ensures Slot(b, 1, n) != a ==> Ahead(a, Slot(b, 1, n), n) == Ahead(a, b, n) + 1
  {
  }

  // Moving the near index `j` slots on.
  lemma AheadLess(a: nat, j: nat, b: nat, n: nat)
    requires a < n && b < n && j <= Ahead(a, b, n)
    ensures Ahead(Slot(a, j, n), b, n) == Ahead(a, b, n) - j
  {
  }

  // ---- DMA addresses ----

  const TAG := 0x5000_0000_0000

  // The address of a tagged mapping with its tag toggled off.
  function Untagged(addr: nat): nat {
    BitXor(addr, 0x5000_0000_0000)
  }

  // The device sees two packets at one address only if they are one packet.
  lemma UntaggedInjective(a: nat, b: nat)
    requires Untagged(a) == Untagged(b)
    ensures a == b
  {
    XorTwice(a, 0x5000_0000_0000);
    XorTwice(b, 0x5000_0000_0000);
  }
}
