// Packets and the freelist of src/packet.rs.
//
// A Box<Packet> is a value here: the owner of the box is the only one who can
// see or change it. `addr` is the address of the packet's memory; that no two
// boxes share one is what the freelist, and the ownership module, prove.
module Packets {
  import opened Words
  import opened Bits
  import opened Sets

  const MAX_PACKETS := 1_000_000

  // PAYLOAD_SIZE bytes.
  type Payload = s: seq<byte> | |s| == 10240 witness seq(10240, _ => 0)

  datatype Packet = Packet(addr: nat, length: u16, data: Payload)

  datatype Option<+T> = None | Some(value: T)

  // What a packet says on the wire: its length and the bytes in front of it.
  datatype Frame = Frame(length: u16, bytes: seq<byte>)

  function Min(a: nat, b: nat): nat { if a < b then a else b }

  function FrameOf(p: Packet): (f: Frame)
    ensures f.length == p.length
  {
    Frame(p.length, p.data[..Min(p.length, 10240)])
  }

  // Two packets say the same when their lengths agree, and their bytes up to there.
  lemma FrameMeans(p: Packet, q: Packet)
    ensures FrameOf(p) == FrameOf(q)
       <==> p.length == q.length && forall i :: 0 <= i < p.length && i < 10240 ==> p.data[i] == q.data[i]
  {
    var n := Min(p.length, 10240);
    if FrameOf(p) == FrameOf(q) {
      assert forall i :: 0 <= i < n ==> p.data[..n][i] == q.data[..n][i];
    }
  }

  function Frames(ps: seq<Packet>): (fs: seq<Frame>)
    ensures |fs| == |ps|
  {
    seq(|ps|, i requires 0 <= i < |ps| => FrameOf(ps[i]))
  }

  function TotalBytes(ps: seq<Packet>): nat {
    if ps == [] then 0 else TotalBytes(ps[..|ps| - 1]) + ps[|ps| - 1].length
  }

  lemma {:induction false} TotalBytesFirst(ps: seq<Packet>)
    requires ps != []
    ensures TotalBytes(ps) == ps[0].length + TotalBytes(ps[1..])
  {
    var last := |ps| - 1;
    if last > 0 {
      TotalBytesFirst(ps[..last]);
      assert ps[..last][1..] == ps[1..][..last - 1];
      assert ps[1..][|ps[1..]| - 1] == ps[last];
    }
  }

  // ---- Addresses ----

  ghost function Addrs(ps: seq<Packet>): set<nat> {
    set i | 0 <= i < |ps| :: ps[i].addr
  }

  ghost predicate Distinct(ps: seq<Packet>) {
    forall i, j :: 0 <= i < j < |ps| ==> ps[i].addr != ps[j].addr
  }

  lemma {:induction false} DistinctCount(ps: seq<Packet>)
    requires Distinct(ps)
    ensures |Addrs(ps)| == |ps|
  {
    if ps != [] {
      var last := |ps| - 1;
      DistinctCount(ps[..last]);
      assert Addrs(ps) == Addrs(ps[..last]) + {ps[last].addr};
    }
  }

  lemma AddrsAppend(ps: seq<Packet>, qs: seq<Packet>)
    ensures Addrs(ps + qs) == Addrs(ps) + Addrs(qs)
  {
    var s := ps + qs;
    forall x | x in Addrs(ps) + Addrs(qs)
      ensures x in Addrs(s)
    {
      if x in Addrs(ps) {
        var i :| 0 <= i < |ps| && ps[i].addr == x;
        assert s[i].addr == x;
      } else {
        var i :| 0 <= i < |qs| && qs[i].addr == x;
        assert s[|ps| + i].addr == x;
      }
    }
  }

  lemma AddrsPush(ps: seq<Packet>, p: Packet)
    ensures Addrs(ps + [p]) == Addrs(ps) + {p.addr}
  {
    AddrsAppend(ps, [p]);
    assert [p][0].addr == p.addr;
  }

  lemma DistinctPush(ps: seq<Packet>, p: Packet)
    requires Distinct(ps) && p.addr !in Addrs(ps)
    ensures Distinct(ps + [p]) && Addrs(ps + [p]) == Addrs(ps) + {p.addr}
  {
    AddrsPush(ps, p);
    forall i | 0 <= i < |ps|
      ensures ps[i].addr != p.addr
    {
      assert ps[i].addr in Addrs(ps);
    }
  }

  lemma DistinctJoin(ps: seq<Packet>, qs: seq<Packet>)
    requires Distinct(ps) && Distinct(qs) && Addrs(ps) !! Addrs(qs)
    ensures Distinct(ps + qs)
  {
    forall i, j | 0 <= i < |ps| && 0 <= j < |qs|
      ensures ps[i].addr != qs[j].addr
    {
      assert ps[i].addr in Addrs(ps) && qs[j].addr in Addrs(qs);
    }
  }

  // ---- The pool of free packets ----

  datatype Stats = Stats(frees: nat, freebytes: nat, freebits: nat)

  // The freelist up to its fill counter, the number of packets ever made, the
  // size of the next refill, and the engine's counters.
  datatype Pool = Pool(free: seq<Packet>, made: nat, step: nat, stats: Stats)

  // Wire bits of a frame: preamble, gap and CRC, and the minimum data size.
  function FrameBits(length: u16): nat {
    (12 + 8 + (if length > 60 then length else 60) + 4) * 8
  }

  function Freed(pool: Pool, p: Packet): Pool {
    pool.(free := pool.free + [p.(length := 0)],
          stats := Stats(pool.stats.frees + 1,
                         pool.stats.freebytes + p.length,
                         pool.stats.freebits + FrameBits(p.length)))
  }

  lemma FreedStats(pool: Pool, p: Packet)
    ensures Freed(pool, p).stats.frees == pool.stats.frees + 1
    ensures Freed(pool, p).stats.freebytes == pool.stats.freebytes + p.length
  {
  }

  function FreedAll(pool: Pool, ps: seq<Packet>): Pool
    decreases |ps|
  {
    if ps == [] then pool else FreedAll(Freed(pool, ps[0]), ps[1..])
  }

  // What the frames of these packets take on the wire: preamble, gap and CRC, and
  // no frame counts for less than 60 bytes.
  function WireBits(ps: seq<Packet>): nat {
    if ps == [] then 0
    else 8 * (24 + if ps[0].length < 60 then 60 else ps[0].length) + WireBits(ps[1..])
  }

  lemma {:induction false} WireBitsAre(ps: seq<Packet>)
    ensures (forall i :: 0 <= i < |ps| ==> ps[i].length <= 60) ==> WireBits(ps) == 672 * |ps|
    ensures (forall i :: 0 <= i < |ps| ==> ps[i].length >= 60) ==> WireBits(ps) == 192 * |ps| + 8 * TotalBytes(ps)
  {
    if ps != [] {
      WireBitsAre(ps[1..]);
      TotalBytesFirst(ps);
    }
  }

  // Every packet of the list comes back once, emptied, in order.
  lemma {:induction false} FreedAllExactly(pool: Pool, ps: seq<Packet>)
    ensures FreedAll(pool, ps).stats.frees == pool.stats.frees + |ps|
    ensures FreedAll(pool, ps).stats.freebytes == pool.stats.freebytes + TotalBytes(ps)
    ensures FreedAll(pool, ps).stats.freebits == pool.stats.freebits + WireBits(ps)
    ensures FreedAll(pool, ps).made == pool.made
    ensures FreedAll(pool, ps).step == pool.step
    ensures FreedAll(pool, ps).free
         == pool.free + seq(|ps|, i requires 0 <= i < |ps| => ps[i].(length := 0))
    decreases |ps|
  {
    if ps != [] {
      FreedAllExactly(Freed(pool, ps[0]), ps[1..]);
      TotalBytesFirst(ps);
    }
  }

  lemma {:induction false} FreedAllAppend(pool: Pool, ps: seq<Packet>, p: Packet)
    ensures FreedAll(pool, ps + [p]) == Freed(FreedAll(pool, ps), p)
    decreases |ps|
  {
    if ps == [] {
      assert [p][1..] == [];
    } else {
      assert (ps + [p])[1..] == ps[1..] + [p];
      FreedAllAppend(Freed(pool, ps[0]), ps[1..], p);
    }
  }

  // Freeing two lists one after the other.
  lemma {:induction false} FreedAllJoin(pool: Pool, ps: seq<Packet>, qs: seq<Packet>)
    ensures FreedAll(pool, ps + qs) == FreedAll(FreedAll(pool, ps), qs)
    decreases |ps|
  {
    hide Freed;
    if ps == [] {
      assert ps + qs == qs;
    } else {
      assert (ps + qs)[1..] == ps[1..] + qs;
      FreedAllJoin(Freed(pool, ps[0]), ps[1..], qs);
    }
  }

  // What freeing the first `done` packets of a list makes of a pool and of the
  // live packets.
  ghost predicate FreedPart(all: seq<Packet>, done: nat, pool: Pool, live: set<nat>, pool': Pool, live': set<nat>) {
    done <= |all| && pool' == FreedAll(pool, all[..done]) && live' == live - Addrs(all[..done])
  }

  lemma FreedNone(all: seq<Packet>, pool: Pool, live: set<nat>)
    ensures FreedPart(all, 0, pool, live, pool, live)
  {
  }

  lemma FreedSoFar(all: seq<Packet>, done: nat, pool: Pool, live: set<nat>, pool': Pool, live': set<nat>)
    requires FreedPart(all, done, pool, live, pool', live')
    ensures done <= |all| && pool' == FreedAll(pool, all[..done]) && live' == live - Addrs(all[..done])
    ensures done == |all| ==> pool' == FreedAll(pool, all) && live' == live - Addrs(all)
  {
    hide FreedAll, Addrs;
    assert all[..|all|] == all;
  }

  lemma FreedNext(all: seq<Packet>, done: nat, pool: Pool, live: set<nat>, pool': Pool, live': set<nat>)
    requires done < |all| && FreedPart(all, done, pool, live, pool', live')
    requires Distinct(all) && Addrs(all) <= live
    ensures all[done].addr in live'
    ensures FreedPart(all, done + 1, pool, live, Freed(pool', all[done]), live' - {all[done].addr})
    ensures all[done..] == [all[done]] + all[done + 1..]
  {
    hide Freed, FreedAll;
    assert all[..done + 1] == all[..done] + [all[done]];
    AddrsPush(all[..done], all[done]);
    FreedAllAppend(pool, all[..done], all[done]);
    assert all[done].addr in Addrs(all) && all[done].addr !in Addrs(all[..done]);
  }

  // ---- How far refills can go ----

  // After `k` refills of doubling size, starting from 1000.
  ghost predicate Refilled(made: nat, step: nat, k: nat) {
    made == 1000 * (Pow2(k) - 1) && step == 1000 * Pow2(k)
  }

  lemma {:induction false} Pow2Monotone(m: nat, n: nat)
    requires m <= n
    ensures Pow2(m) <= Pow2(n)
    decreases n
  {
    if m < n {
      Pow2Monotone(m, n - 1);
    }
  }

  // Nine refills fit below MAX_PACKETS and a tenth never does, so at most
  // 511000 packets are ever made.
  lemma RefillBound(made: nat, step: nat, k: nat)
    requires Refilled(made, step, k)
    ensures made + step <= MAX_PACKETS <==> k <= 8
    ensures k <= 9 ==> made <= 511_000 && (made == 511_000 <==> k == 9)
    ensures Refilled(made + step, 2 * step, k + 1)
  {
    assert Pow2(3) == 8;
    assert Pow2(6) == 8 * Pow2(3);
    assert Pow2(8) == 4 * Pow2(6) == 256;
    assert Pow2(9) == 2 * Pow2(8) == 512;
    if k <= 8 {
      Pow2Monotone(k, 8);
    } else {
      Pow2Monotone(9, k);
    }
  }

  // ---- The global freelist ----

  class Freelist {
    const list: array<Packet>
    var nfree: nat
    var packetsAllocated: nat
    var packetAllocationStep: nat
    var stats: Stats
    // The address of the k-th packet the memory allocator ever makes. No address
    // comes twice, as `Memory.Allocator.PacketsApart` shows of its blocks.
    const heap: nat -> nat
    ghost var refills: nat

    ghost function Universe(n: nat): set<nat>
    {
      set k: nat | k < n :: heap(k)
    }

    ghost function Available(): seq<Packet>
      requires nfree <= list.Length
      reads this, list
    {
      list[..nfree]
    }

    // The packets of which a box is around, outside the freelist.
    ghost function Live(): set<nat>
      requires nfree <= list.Length
      reads this, list
    {
      Universe(packetsAllocated) - Addrs(Available())
    }

    ghost predicate Valid()
      reads this, list
      ensures Valid() ==> nfree <= list.Length
    {
      && HeapInjective()
      && Stored(packetsAllocated)
      && refills <= 9 && Refilled(packetsAllocated, packetAllocationStep, refills)
    }

    ghost predicate HeapInjective() {
      forall i: nat, j: nat :: i < j < MAX_PACKETS ==> heap(i) != heap(j)
    }

    // The list holds distinct emptied packets among the first `made` ones.
    ghost predicate Stored(made: nat)
      reads this, list
    {
      && list.Length == MAX_PACKETS && nfree <= MAX_PACKETS
      && Distinct(Available()) && Addrs(Available()) <= Universe(made)
      && (forall i :: 0 <= i < nfree ==> list[i].length == 0)
    }

    ghost function Abs(): Pool
      requires nfree <= list.Length
      reads this, list
    {
      Pool(Available(), packetsAllocated, packetAllocationStep, stats)
    }

    constructor (heap: nat -> nat)
      requires forall i: nat, j: nat :: i < j < MAX_PACKETS ==> heap(i) != heap(j)
      ensures Valid() && fresh(list)
      ensures Abs() == Pool([], 0, 1000, Stats(0, 0, 0)) && Live() == {}
    {
      this.heap := heap;
      list := new Packet[1_000_000](_ => Packet(0, 0, seq(10240, _ => 0)));
      nfree, packetsAllocated, packetAllocationStep := 0, 0, 1000;
      stats := Stats(0, 0, 0);
      refills := 0;
    }

    lemma {:induction false} UniverseCount(n: nat)
      requires HeapInjective() && n <= MAX_PACKETS
      ensures |Universe(n)| == n
    {
      hide HeapInjective;
      if n > 0 {
        UniverseCount(n - 1);
        StepFresh(n - 1);
      }
    }

    // Every packet made is on the list or live, never both.
    lemma LiveCount()
      requires Valid()
      ensures |Live()| + nfree == packetsAllocated
    {
      RefillBound(packetsAllocated, packetAllocationStep, refills);
      UniverseCount(packetsAllocated);
      DistinctCount(Available());
      SubsetCount(Addrs(Available()), Universe(packetsAllocated));
    }

    // Puts an emptied packet on the list.
    method FreeInternal(p: Packet, ghost made: nat)
      requires Stored(made) && made <= MAX_PACKETS && HeapInjective()
      requires p.addr in Universe(made) && p.addr !in Addrs(Available())
      modifies this`nfree, list
      ensures Stored(made) && nfree == old(nfree) + 1
      ensures Available() == old(Available()) + [p.(length := 0)]
      ensures Addrs(Available()) == old(Addrs(Available())) + {p.addr}
    {
      ghost var before := Available();
      Room(p.addr, made);
      if nfree == MAX_PACKETS {
        assert false;
      }
      list[nfree] := p.(length := 0);
      nfree := nfree + 1;
      assert Available() == before + [p.(length := 0)];
      AddrsPush(before, p.(length := 0));
    }

    // The overflow panic of `free_internal` is out of reach for an owned packet.
    lemma Room(addr: nat, made: nat)
      requires Stored(made) && made <= MAX_PACKETS && HeapInjective()
      requires addr in Universe(made) && addr !in Addrs(Available())
      ensures nfree < MAX_PACKETS
    {
      UniverseCount(made);
      DistinctCount(Available());
      SubsetCount(Addrs(Available()) + {addr}, Universe(made));
    }

    // Makes the packet after the first `made` ones and frees it.
    method MakeOne(made: nat)
      requires Stored(made) && made < MAX_PACKETS && HeapInjective()
      modifies this`nfree, list
      ensures Stored(made + 1) && nfree == old(nfree) + 1
      ensures Universe(made + 1) - Addrs(Available()) == old(Universe(made) - Addrs(Available()))
    {
      hide HeapInjective, Distinct, Addrs;
      StepFresh(made);
      assert heap(made) !in Addrs(Available());
      StoredGrows(made);
      var p := Packet(heap(made), 0, seq(10240, _ => 0));
      FreeInternal(p, made + 1);
    }

    lemma StoredGrows(made: nat)
      requires Stored(made)
      ensures Stored(made + 1)
    {
    }

    // Makes and frees one step of packets; false is the allocation panic.
    method PreallocateStep() returns (ok: bool)
      requires Valid()
      modifies this, list
      ensures Valid() && stats == old(stats)
      ensures ok <==> old(packetsAllocated + packetAllocationStep) <= MAX_PACKETS
      ensures !ok ==> Abs() == old(Abs())
      ensures ok ==> packetsAllocated == old(packetsAllocated + packetAllocationStep)
      ensures ok ==> packetAllocationStep == 2 * old(packetAllocationStep)
      ensures ok ==> nfree == old(nfree + packetAllocationStep)
      ensures Live() == old(Live())
    {
      hide HeapInjective, Universe, Addrs, Distinct, Refilled;
      RefillBound(packetsAllocated, packetAllocationStep, refills);
      if packetsAllocated + packetAllocationStep > MAX_PACKETS {
        return false;
      }
      for i := 0 to packetAllocationStep
        invariant unchanged(`packetsAllocated) && unchanged(`packetAllocationStep)
        invariant unchanged(`stats) && unchanged(`refills)
        invariant HeapInjective() && Stored(packetsAllocated + i)
        invariant nfree == old(nfree) + i
        invariant Universe(packetsAllocated + i) - Addrs(Available()) == old(Live())
      {
        MakeOne(packetsAllocated + i);
      }
      packetsAllocated := packetsAllocated + packetAllocationStep;
      packetAllocationStep := packetAllocationStep * 2;
      refills := refills + 1;
      ok := true;
    }

    lemma StepFresh(n: nat)
      requires HeapInjective() && n < MAX_PACKETS
      ensures Universe(n + 1) == Universe(n) + {heap(n)} && heap(n) !in Universe(n)
    {
    }

    // Takes the last packet off the list.
    method Pop() returns (p: Packet)
      requires Valid() && nfree > 0
      modifies this`nfree
      ensures Valid() && nfree == old(nfree) - 1 && Available() == old(Available())[..nfree]
      ensures p == old(Available())[nfree] && p.length == 0
      ensures p.addr !in old(Live()) && Live() == old(Live()) + {p.addr}
    {
      nfree := nfree - 1;
      p := list[nfree];
      assert old(Available()) == Available() + [p];
      AddrsPush(Available(), p);
      assert p.addr !in Addrs(Available());
    }

    // An allocation fails exactly when all packets there can be are out.
    lemma Exhausted()
      requires Valid()
      ensures |Live()| == 511_000 <==> nfree == 0 && packetsAllocated + packetAllocationStep > MAX_PACKETS
      ensures packetAllocationStep > 0
    {
      LiveCount();
      RefillBound(packetsAllocated, packetAllocationStep, refills);
    }

    lemma LiveAtMost()
      requires Valid()
      ensures |Live()| <= 511_000
    {
      LiveCount();
      RefillBound(packetsAllocated, packetAllocationStep, refills);
    }

    // Takes an emptied packet off the list, refilling it first when empty.
    method Allocate() returns (r: Option<Packet>)
      requires Valid()
      modifies this, list
      ensures Valid() && stats == old(stats)
      ensures r.None? <==> |old(Live())| == 511_000
      ensures r.None? ==> Abs() == old(Abs()) && Live() == old(Live())
      ensures r.Some? ==> r.value.length == 0 && r.value.addr !in old(Live())
      ensures r.Some? ==> Live() == old(Live()) + {r.value.addr}
      ensures old(nfree) > 0 ==> r == Some(old(Available())[old(nfree) - 1])
      ensures old(nfree) > 0 ==> Available() == old(Available())[..old(nfree) - 1]
      ensures old(nfree) > 0 ==> unchanged(`packetsAllocated) && unchanged(`packetAllocationStep)
      ensures r.Some? && old(nfree) == 0 ==>
                && nfree == old(packetAllocationStep) - 1
                && packetsAllocated == old(packetsAllocated + packetAllocationStep) <= MAX_PACKETS
                && packetAllocationStep == 2 * old(packetAllocationStep)
    {
      hide Valid, Live;
      Exhausted();
      if nfree == 0 {
        var ok := PreallocateStep();
        if !ok {
          return None;
        }
      }
      var p := Pop();
      r := Some(p);
    }

    // Returns a packet. Only the owner of a live packet can call this.
    method Free(p: Packet)
      requires Valid() && p.addr in Live()
      modifies this, list
      ensures Valid() && Abs() == Freed(old(Abs()), p)
      ensures Live() == old(Live()) - {p.addr}
    {
      RefillBound(packetsAllocated, packetAllocationStep, refills);
      stats := Stats(stats.frees + 1, stats.freebytes + p.length,
                     stats.freebits + FrameBits(p.length));
      FreeInternal(p, packetsAllocated);
    }

    // A copy in a fresh packet: same length, same bytes in front of it.
    method Clone(p: Packet) returns (r: Option<Packet>)
      requires Valid()
      modifies this, list
      ensures Valid() && stats == old(stats)
      ensures r.None? <==> |old(Live())| == 511_000
      ensures r.None? ==> Abs() == old(Abs()) && Live() == old(Live())
      ensures r.Some? ==> FrameOf(r.value) == FrameOf(p) && r.value.addr !in old(Live())
      ensures r.Some? ==> Live() == old(Live()) + {r.value.addr}
    {
      r := Allocate();
      if r.Some? {
        CopiedFrame(r.value, p);
        r := Some(Copied(r.value, p));
      }
    }
  }

  // `lib::copy` of the payload and the length.
  function Copied(to: Packet, from: Packet): (r: Packet)
    ensures r.addr == to.addr
  {
    var n := Min(from.length, 10240);
    to.(data := from.data[..n] + to.data[n..], length := from.length)
  }

  lemma CopiedFrame(to: Packet, from: Packet)
    ensures FrameOf(Copied(to, from)) == FrameOf(from)
  {
    var n := Min(from.length, 10240);
    assert (from.data[..n] + to.data[n..])[..n] == from.data[..n];
  }
}
