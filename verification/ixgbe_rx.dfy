// The receive ring of src/ixy82599/ixgbe.rs, shared with a device that fills
// descriptors in order, at any time, as long as the tail register lets it.
module RxRing {
  import opened Words
  import opened Bits
  import opened Rings
  import opened Packets
  import opened Links

  // ---- Descriptors ----

  // The 16 bytes of a descriptor: `pkt_addr` and `hdr_addr` on the way out. On
  // the way back the second half holds the status word, the length and the VLAN
  // tag, so writing `hdr_addr` clears the status.
  datatype RxDesc = RxDesc(low: nat, high: u64)

  function StatusOf(d: RxDesc): u32 { d.high % 0x1_0000_0000 }

  function LengthOf(d: RxDesc): u16 { (d.high / 0x1_0000_0000) % 0x1_0000 }

  function Filled(d: RxDesc): bool { BitAnd(StatusOf(d), 1) != 0 }

  function EndOfPacket(d: RxDesc): bool { BitAnd(StatusOf(d), 2) != 0 }

  // What the driver reads out of a write-back: bit 0 of the status word stands
  // for a filled descriptor, bit 1 for the end of the packet.
  lemma WriteBack(d: RxDesc, status: u32, length: u16, vlan: u16)
    requires d.high == status + 0x1_0000_0000 * length + 0x1_0000_0000_0000 * vlan
    ensures StatusOf(d) == status && LengthOf(d) == length
    ensures Filled(d) <==> status % 2 == 1
    ensures EndOfPacket(d) <==> (status / 2) % 2 == 1
  {
    hide BitAnd;
    DivModUnique(d.high, 0x1_0000_0000, length + 0x1_0000 * vlan, status);
    DivModUnique(length + 0x1_0000 * vlan, 0x1_0000, vlan, length);
    LowestBits(status);
  }

  lemma LowestBits(x: nat)
    ensures BitAnd(x, 1) != 0 <==> x % 2 == 1
    ensures BitAnd(x, 2) != 0 <==> (x / 2) % 2 == 1
  {
  }

  // The descriptor the driver writes for an empty buffer.
  function Armed(p: Packet): (d: RxDesc)
    ensures !Filled(d) && d.low == Untagged(p.addr) && d.high == 0
  {
    RxDesc(Untagged(p.addr), 0)
  }

  // ---- The ring ----

  // Descriptor memory, the packet behind each descriptor, the driver's index,
  // and the device's tail and head registers.
  datatype Rx = Rx(desc: seq<RxDesc>, bufs: seq<Packet>, index: nat, rdt: nat, rdh: nat)

  ghost predicate InRing(s: Rx) {
    && IsPowerOfTwo(|s.desc|) && |s.bufs| == |s.desc|
    && s.index < |s.desc| && s.rdt < |s.desc| && s.rdh < |s.desc|
  }

  // How many filled descriptors wait for the driver.
  function Waiting(s: Rx): nat
    requires s.index < |s.desc| && s.rdh < |s.desc|
  {
    Ahead(s.index, s.rdh, |s.desc|)
  }

  // How many more the device may fill.
  function Room(s: Rx): nat
    requires s.rdh < |s.desc| && s.rdt < |s.desc|
  {
    Ahead(s.rdh, s.rdt, |s.desc|)
  }

  // From the driver's index on: first the filled descriptors, then those armed
  // with their own packet. The device never gets around to the driver's index.
  ghost predicate RxInv(s: Rx)
    ensures RxInv(s) ==> InRing(s)
  {
    && InRing(s)
    && Waiting(s) + Room(s) < |s.desc|
    && (forall k :: 0 <= k < Waiting(s) ==> Filled(s.desc[Slot(s.index, k, |s.desc|)]))
    && (forall k :: Waiting(s) <= k < |s.desc| ==>
          s.desc[Slot(s.index, k, |s.desc|)] == Armed(s.bufs[Slot(s.index, k, |s.desc|)]))
    && Distinct(s.bufs)
  }

  // Between calls the tail is one slot behind the index.
  ghost predicate Parked(s: Rx) {
    s.index < |s.desc| && s.rdt < |s.desc| && s.rdt == Slot(s.index, |s.desc| - 1, |s.desc|)
  }

  // ---- Steps ----

  // Device: put a frame into the memory the head descriptor points to, write
  // the descriptor back and move on.
  function Landed(s: Rx, address: nat, payload: Payload): seq<Packet> {
    seq(|s.bufs|, i requires 0 <= i < |s.bufs| =>
      if Untagged(s.bufs[i].addr) == address then s.bufs[i].(data := payload) else s.bufs[i])
  }

  function Fill(s: Rx, back: RxDesc, payload: Payload): Rx
    requires s.rdh < |s.desc|
  {
    Rx(s.desc[s.rdh := back], Landed(s, s.desc[s.rdh].low, payload), s.index, s.rdt,
       WrapRing(s.rdh, |s.desc|))
  }

  // Driver: the packet behind the descriptor at the index, with the length the
  // device wrote.
  function Next(s: Rx): Packet
    requires s.index < |s.desc| == |s.bufs|
  {
    s.bufs[s.index].(length := LengthOf(s.desc[s.index]))
  }

  // Driver: put a new packet in its place and arm the descriptor again.
  function Take(s: Rx, np: Packet): Rx
    requires s.index < |s.desc| == |s.bufs|
  {
    s.(desc := s.desc[s.index := Armed(np)], bufs := s.bufs[s.index := np],
       index := WrapRing(s.index, |s.desc|))
  }

  // Driver: hand everything but the slot behind the index to the device.
  function Publish(s: Rx): Rx
    requires s.index < |s.desc|
  {
    s.(rdt := Slot(s.index, |s.desc| - 1, |s.desc|))
  }

  lemma LandedOne(s: Rx, payload: Payload)
    requires InRing(s) && Distinct(s.bufs)
    ensures Landed(s, Armed(s.bufs[s.rdh]).low, payload)
         == s.bufs[s.rdh := s.bufs[s.rdh].(data := payload)]
  {
    hide Untagged;
    var address := Armed(s.bufs[s.rdh]).low;
    forall i | 0 <= i < |s.bufs| && Untagged(s.bufs[i].addr) == address
      ensures i == s.rdh
    {
      UntaggedInjective(s.bufs[i].addr, s.bufs[s.rdh].addr);
    }
  }

  // The device writes only into the buffer of the slot it fills.
  lemma FillKeeps(s: Rx, back: RxDesc, payload: Payload)
    requires RxInv(s) && s.rdh != s.rdt && Filled(back)
    ensures var s' := Fill(s, back, payload);
            && s'.bufs == s.bufs[s.rdh := s.bufs[s.rdh].(data := payload)]
            && RxInv(s') && Waiting(s') == Waiting(s) + 1 && Room(s') == Room(s) - 1
            && s.rdh == Slot(s.index, Waiting(s), |s.desc|)
            && s.desc[s.rdh] == Armed(s.bufs[s.rdh])
  {
    hide Slot, Ahead, WrapRing, Untagged, Filled, Armed, IsPowerOfTwo, Landed, Distinct;
    var n, w := |s.desc|, Waiting(s);
    assert Slot(s.index, w, n) == s.rdh && Slot(s.rdh, Room(s), n) == s.rdt;
    SlotRound(s.rdh, n);
    WrapRingIsNext(s.rdh, n);
    AheadNext(s.index, s.rdh, n);
    AheadLess(s.rdh, 1, s.rdt, n);
    LandedOne(s, payload);
    SameAddrs(s.bufs, s.bufs[s.rdh := s.bufs[s.rdh].(data := payload)]);
    forall k | 0 <= k < n && k != w
      ensures Slot(s.index, k, n) != s.rdh
    {
      SlotsApart(s.index, k, w, n);
    }
  }

  lemma TakeKeeps(s: Rx, np: Packet)
    requires RxInv(s) && Filled(s.desc[s.index]) && np.addr !in Addrs(s.bufs)
    ensures Waiting(s) > 0
    ensures RxInv(Take(s, np)) && Waiting(Take(s, np)) == Waiting(s) - 1
  {
    hide Slot, Ahead, WrapRing, Untagged, Filled, Armed, IsPowerOfTwo, Distinct, Addrs;
    var s', n := Take(s, np), |s.desc|;
    SlotRound(s.index, n);
    WrapRingIsNext(s.index, n);
    AheadLess(s.index, 1, s.rdh, n);
    DistinctReplace(s.bufs, s.index, np);
    forall k | 0 <= k < n
      ensures Slot(s'.index, k, n) == Slot(s.index, k + 1, n)
      ensures k + 1 < n ==> Slot(s.index, k + 1, n) != s.index
    {
      SlotShift(s.index, 1, k, n);
      if k + 1 < n {
        SlotsApart(s.index, k + 1, 0, n);
      }
    }
  }

  lemma DistinctReplace(bufs: seq<Packet>, i: nat, np: Packet)
    requires i < |bufs| && Distinct(bufs) && np.addr !in Addrs(bufs)
    ensures Distinct(bufs[i := np])
  {
    forall j | 0 <= j < |bufs|
      ensures bufs[j].addr != np.addr
    {
      assert bufs[j].addr in Addrs(bufs);
    }
  }

  lemma PublishKeeps(s: Rx)
    requires RxInv(s)
    ensures RxInv(Publish(s)) && Parked(Publish(s)) && Waiting(Publish(s)) == Waiting(s)
  {
    hide Untagged, Filled;
  }

  // ---- Whole runs, with the device interleaved at will ----

  // One frame that came in: where the device put it, what it wrote, and whether
  // that was the whole frame.
  datatype Arrival = Arrival(address: nat, length: u16, payload: Payload, whole: bool)

  function Came(armed: RxDesc, back: RxDesc, payload: Payload): Arrival {
    Arrival(armed.low, LengthOf(back), payload, EndOfPacket(back))
  }

  ghost predicate Carries(p: Packet, a: Arrival) {
    Untagged(p.addr) == a.address && p.length == a.length && p.data == a.payload
  }

  datatype RxEvent = DeviceFill(back: RxDesc, payload: Payload) | DriverTake(np: Packet) | DriverPublish

  datatype RxHistory = RxHistory(s: Rx, arrived: seq<Arrival>, taken: seq<Packet>)

  // None: not enabled, or the panic on a frame larger than one buffer. A new
  // packet comes off the freelist, so it is none of those on the ring.
  ghost function RxStep(h: RxHistory, e: RxEvent): Option<RxHistory> {
    if !InRing(h.s) then None
    else match e
      case DeviceFill(back, payload) =>
        if h.s.rdh == h.s.rdt || !Filled(back) then None
        else Some(h.(s := Fill(h.s, back, payload),
                     arrived := h.arrived + [Came(h.s.desc[h.s.rdh], back, payload)]))
      case DriverTake(np) =>
        if !Filled(h.s.desc[h.s.index]) || !EndOfPacket(h.s.desc[h.s.index]) then None
        else if np.addr in Addrs(h.s.bufs) then None
        else Some(h.(s := Take(h.s, np), taken := h.taken + [Next(h.s)]))
      case DriverPublish => Some(h.(s := Publish(h.s)))
  }

  // The frames waiting on the ring, oldest first.
  ghost predicate Pending(s: Rx, waiting: seq<Arrival>) {
    && InRing(s) && |waiting| == Waiting(s)
    && (forall k :: 0 <= k < |waiting| ==>
          IsFrame(s.bufs[Slot(s.index, k, |s.desc|)], s.desc[Slot(s.index, k, |s.desc|)], waiting[k]))
  }

  // A buffer and its filled descriptor hold this frame.
  ghost predicate IsFrame(p: Packet, d: RxDesc, a: Arrival) {
    Carries(p.(length := LengthOf(d)), a) && (EndOfPacket(d) <==> a.whole)
  }

  // Packets leave in the order their frames arrived, with their lengths and
  // contents, whole frames only; what has not left is pending.
  ghost predicate RxSafe(h: RxHistory) {
    && RxInv(h.s)
    && |h.taken| <= |h.arrived|
    && Pending(h.s, h.arrived[|h.taken|..])
    && (forall i :: 0 <= i < |h.taken| ==> Carries(h.taken[i], h.arrived[i]) && h.arrived[i].whole)
  }

  lemma FillPending(s: Rx, back: RxDesc, payload: Payload, waiting: seq<Arrival>)
    requires RxInv(s) && s.rdh != s.rdt && Filled(back) && Pending(s, waiting)
    ensures Pending(Fill(s, back, payload), waiting + [Came(s.desc[s.rdh], back, payload)])
  {
    hide Slot, Ahead, WrapRing, Untagged, Filled, EndOfPacket, IsPowerOfTwo, RxInv, LengthOf, Landed;
    FillKeeps(s, back, payload);
    var n := |s.desc|;
    forall k | 0 <= k < |waiting|
      ensures Slot(s.index, k, n) != s.rdh
    {
      SlotsApart(s.index, k, |waiting|, n);
    }
  }

  lemma TakePending(s: Rx, np: Packet, waiting: seq<Arrival>)
    requires RxInv(s) && Filled(s.desc[s.index]) && np.addr !in Addrs(s.bufs) && Pending(s, waiting)
    ensures waiting != [] && Carries(Next(s), waiting[0]) && (EndOfPacket(s.desc[s.index]) <==> waiting[0].whole)
    ensures Pending(Take(s, np), waiting[1..])
  {
    hide Slot, Ahead, WrapRing, Untagged, Filled, EndOfPacket, Armed, IsPowerOfTwo, RxInv, Carries, LengthOf, Addrs;
    TakeKeeps(s, np);
    var s', n := Take(s, np), |s.desc|;
    SlotRound(s.index, n);
    WrapRingIsNext(s.index, n);
    forall k | 0 <= k < |waiting| - 1
      ensures Slot(s'.index, k, n) == Slot(s.index, k + 1, n) != s.index
    {
      SlotShift(s.index, 1, k, n);
      SlotsApart(s.index, k + 1, 0, n);
    }
  }

  lemma RxStepSafe(h: RxHistory, e: RxEvent)
    requires RxSafe(h) && RxStep(h, e).Some?
    ensures RxSafe(RxStep(h, e).value)
  {
    hide RxInv, Pending, Filled, EndOfPacket, Addrs, Landed, LengthOf, Carries, Came;
    var waiting := h.arrived[|h.taken|..];
    match e {
      case DeviceFill(back, payload) =>
        FillKeeps(h.s, back, payload);
        FillPending(h.s, back, payload, waiting);
        var h' := RxStep(h, e).value;
        assert h'.arrived[|h.taken|..]
            == waiting + [Came(h.s.desc[h.s.rdh], back, payload)];
      case DriverTake(np) =>
        TakeKeeps(h.s, np);
        TakePending(h.s, np, waiting);
        assert h.arrived[|h.taken| + 1..] == waiting[1..];
      case DriverPublish =>
        PublishKeeps(h.s);
        PublishPending(h.s, waiting);
    }
  }

  lemma PublishPending(s: Rx, waiting: seq<Arrival>)
    requires RxInv(s) && Pending(s, waiting)
    ensures Pending(Publish(s), waiting)
  {
  }

  // A started ring: every descriptor armed, the whole ring but one slot handed
  // to the device.
  function Started(bufs: seq<Packet>): RxHistory
    requires bufs != []
  {
    RxHistory(Rx(seq(|bufs|, i requires 0 <= i < |bufs| => Armed(bufs[i])), bufs, 0, |bufs| - 1, 0), [], [])
  }

  ghost function RxRun(bufs: seq<Packet>, es: seq<RxEvent>): Option<RxHistory>
    requires bufs != []
  {
    if es == [] then Some(Started(bufs))
    else match RxRun(bufs, es[..|es| - 1])
         case None => None
         case Some(h) => RxStep(h, es[|es| - 1])
  }

  lemma StartedSafe(bufs: seq<Packet>)
    requires IsPowerOfTwo(|bufs|) && Distinct(bufs)
    ensures RxSafe(Started(bufs)) && Parked(Started(bufs).s)
  {
  }

  lemma {:induction false} RxRunSafe(bufs: seq<Packet>, es: seq<RxEvent>)
    requires IsPowerOfTwo(|bufs|) && Distinct(bufs) && RxRun(bufs, es).Some?
    ensures RxSafe(RxRun(bufs, es).value)
  {
    if es == [] {
      StartedSafe(bufs);
    } else {
      RxRunSafe(bufs, es[..|es| - 1]);
      RxStepSafe(RxRun(bufs, es[..|es| - 1]).value, es[|es| - 1]);
    }
  }

  // The boxes of the ring and of a link are all different, and none is free.
  ghost predicate Owned(live: set<nat>, bufs: seq<Packet>, queue: seq<Packet>) {
    && Distinct(bufs) && Distinct(queue)
    && Addrs(bufs) !! Addrs(queue)
    && Addrs(bufs) <= live && Addrs(queue) <= live
  }

  lemma OwnedTake(live: set<nat>, bufs: seq<Packet>, queue: seq<Packet>, i: nat, p: Packet, np: Packet)
    requires Owned(live, bufs, queue) && i < |bufs|
    requires p.addr == bufs[i].addr && np.addr !in live
    ensures p.addr in live && np.addr !in Addrs(bufs)
    ensures Owned(live + {np.addr}, bufs[i := np], queue + [p])
    ensures Owned(live + {np.addr} - {p.addr}, bufs[i := np], queue)
  {
    assert bufs[i].addr in Addrs(bufs);
    AddrsPush(queue, p);
    AddrsReplace(bufs, i, np);
    forall j | 0 <= j < |queue|
      ensures queue[j].addr != p.addr
    {
      assert queue[j].addr in Addrs(queue);
    }
    forall j | 0 <= j < |bufs|
      ensures bufs[j].addr != np.addr
    {
      assert bufs[j].addr in Addrs(bufs);
    }
  }

  lemma OwnedLive(live: set<nat>, bufs: seq<Packet>, queue: seq<Packet>, i: nat)
    requires Owned(live, bufs, queue) && i < |bufs|
    ensures bufs[i].addr in live
  {
    assert bufs[i].addr in Addrs(bufs);
  }

  lemma OwnedNew(live: set<nat>, bufs: seq<Packet>, queue: seq<Packet>, np: Packet)
    requires Owned(live, bufs, queue) && np.addr !in live
    ensures np.addr !in Addrs(bufs)
  {
  }

  lemma AddrsReplace(bufs: seq<Packet>, i: nat, np: Packet)
    requires i < |bufs| && Distinct(bufs)
    ensures Addrs(bufs[i := np]) == Addrs(bufs) - {bufs[i].addr} + {np.addr}
  {
    var after := bufs[i := np];
    assert after[i].addr == np.addr;
    forall x | x in Addrs(bufs) && x != bufs[i].addr
      ensures x in Addrs(after)
    {
      var j :| 0 <= j < |bufs| && bufs[j].addr == x;
      assert after[j].addr == x;
    }
  }

  lemma SameAddrs(a: seq<Packet>, b: seq<Packet>)
    requires |a| == |b| && forall i :: 0 <= i < |a| ==> a[i].addr == b[i].addr
    ensures Addrs(a) == Addrs(b) && (Distinct(a) <==> Distinct(b))
  {
    forall x
      ensures x in Addrs(a) <==> x in Addrs(b)
    {
      if x in Addrs(a) {
        var i :| 0 <= i < |a| && a[i].addr == x;
        assert b[i].addr == x;
      }
      if x in Addrs(b) {
        var i :| 0 <= i < |b| && b[i].addr == x;
        assert a[i].addr == x;
      }
    }
  }

  // ---- The driver's queue ----

  datatype Outcome = Batch(n: nat) | FrameTooBig | OutOfPackets

  class RxQueue {
    const descriptors: array<RxDesc>
    var bufsInUse: seq<Packet>
    var rxIndex: nat
    // The device's registers, the frames that came in, and how many of them
    // the driver has taken.
    var rdt: nat
    var rdh: nat
    ghost var arrived: seq<Arrival>
    ghost var taken: nat

    // The ring seen from a local index, ahead of `rxIndex` inside `rx_batch`.
    ghost function At(index: nat): Rx
      reads this, descriptors
    {
      Rx(descriptors[..], bufsInUse, index, rdt, rdh)
    }

    ghost predicate ValidAt(index: nat)
      reads this, descriptors
      ensures ValidAt(index) ==> InRing(At(index)) && index < |bufsInUse| == descriptors.Length
      ensures ValidAt(index) ==> taken + Waiting(At(index)) == |arrived|
    {
      && RxInv(At(index))
      && taken <= |arrived| && Pending(At(index), arrived[taken..])
    }

    ghost predicate Valid()
      reads this, descriptors
    {
      ValidAt(rxIndex) && Parked(At(rxIndex))
    }

    constructor (numDescriptors: nat)
      requires numDescriptors > 0
      ensures fresh(descriptors) && descriptors.Length == numDescriptors
      ensures bufsInUse == [] && rxIndex == 0 && rdh == 0 && arrived == [] && taken == 0
    {
      descriptors := new RxDesc[numDescriptors](_ => RxDesc(0xffff_ffff_ffff_ffff, 0xffff_ffff_ffff_ffff));
      bufsInUse, rxIndex, rdt, rdh, arrived, taken := [], 0, 0, 0, [], 0;
    }

    // Puts a packet behind every descriptor and hands the ring to the device.
    // False is either the error on the ring size or the allocation panic.
    method Start(fl: Freelist) returns (ok: bool)
      requires descriptors.Length > 0 && bufsInUse == [] && rxIndex == 0 && arrived == [] && taken == 0
      requires fl.Valid()
      modifies this`bufsInUse, this`rdt, this`rdh, descriptors, fl, fl.list
      ensures fl.Valid()
      ensures ok <==> IsPowerOfTwo(descriptors.Length) && |old(fl.Live())| + descriptors.Length <= 511_000
      ensures ok ==> Valid() && Owned(fl.Live(), bufsInUse, [])
      ensures ok ==> fl.Live() == old(fl.Live()) + Addrs(bufsInUse)
    {
      hide Freelist.Valid, Freelist.Live, Distinct, Addrs, Armed, Valid, Owned, IsPowerOfTwo, BitAnd;
      ghost var live := fl.Live();
      fl.LiveAtMost();
      PowerOfTwoTest(descriptors.Length);
      if BitAnd(descriptors.Length, descriptors.Length - 1) != 0 {
        return false;
      }
      NoBuffers();
      for i := 0 to descriptors.Length
        invariant fl.Valid() && |bufsInUse| == i && Distinct(bufsInUse)
        invariant fl.Live() == live + Addrs(bufsInUse) && Addrs(bufsInUse) !! live
        invariant |live| + i <= 511_000
        invariant forall k :: 0 <= k < i ==> descriptors[k] == Armed(bufsInUse[k])
      {
        var armed := ArmNext(fl, live);
        if !armed {
          return false;
        }
      }
      rdh := 0;
      rdt := descriptors.Length - 1;
      ok := true;
      StartedValid();
      OwnedAlone(live, bufsInUse);
    }

    // One round of the setup loop.
    method ArmNext(fl: Freelist, ghost live: set<nat>) returns (ok: bool)
      requires |bufsInUse| < descriptors.Length && Distinct(bufsInUse)
      requires fl.Valid() && fl.Live() == live + Addrs(bufsInUse) && Addrs(bufsInUse) !! live
      modifies this`bufsInUse, descriptors, fl, fl.list
      ensures fl.Valid()
      ensures ok <==> |live| + |old(bufsInUse)| < 511_000
      ensures ok ==> |bufsInUse| == |old(bufsInUse)| + 1 && Distinct(bufsInUse)
      ensures ok ==> fl.Live() == live + Addrs(bufsInUse) && Addrs(bufsInUse) !! live
      ensures ok ==> bufsInUse == old(bufsInUse) + [bufsInUse[|bufsInUse| - 1]]
      ensures ok ==> descriptors[..] == old(descriptors[..])[|old(bufsInUse)| := Armed(bufsInUse[|bufsInUse| - 1])]
    {
      hide Freelist.Valid, Freelist.Live, Distinct, Addrs, Armed, Untagged;
      LiveSum(live, bufsInUse);
      fl.LiveAtMost();
      var np := fl.Allocate();
      if np.None? {
        return false;
      }
      NewBuffer(live, bufsInUse, np.value);
      descriptors[|bufsInUse|] := Armed(np.value);
      bufsInUse := bufsInUse + [np.value];
      ok := true;
    }

    lemma StartedValid()
      requires IsPowerOfTwo(descriptors.Length) && |bufsInUse| == descriptors.Length
      requires Distinct(bufsInUse) && rxIndex == 0 && rdh == 0 && rdt == descriptors.Length - 1
      requires taken == 0 && arrived == []
      requires forall k :: 0 <= k < descriptors.Length ==> descriptors[k] == Armed(bufsInUse[k])
      ensures Valid()
    {
      StartedSafe(bufsInUse);
      assert At(0) == Started(bufsInUse).s;
      assert arrived[taken..] == Started(bufsInUse).arrived[0..];
    }

    // The device at work: any number of frames, as far as the tail allows.
    method Device(ghost index: nat)
      requires ValidAt(index)
      modifies this`bufsInUse, this`rdh, this`arrived, descriptors
      ensures ValidAt(index) && |bufsInUse| == |old(bufsInUse)|
      ensures forall i :: 0 <= i < |bufsInUse| ==> bufsInUse[i].addr == old(bufsInUse)[i].addr
      ensures old(arrived) <= arrived
    {
      hide RxInv, Pending, Filled, ValidAt;
      while rdh != rdt
        invariant ValidAt(index) && |bufsInUse| == |old(bufsInUse)|
        invariant forall i :: 0 <= i < |bufsInUse| ==> bufsInUse[i].addr == old(bufsInUse)[i].addr
        invariant old(arrived) <= arrived
        decreases Room(At(index))
      {
        if * {
          break;
        }
        var back: RxDesc := *;
        var payload: Payload := *;
        if Filled(back) {
          FillOne(index, back, payload);
        } else {
          break;
        }
      }
    }

    method FillOne(ghost index: nat, back: RxDesc, payload: Payload)
      requires ValidAt(index) && rdh != rdt && Filled(back)
      modifies this`bufsInUse, this`rdh, this`arrived, descriptors
      ensures ValidAt(index) && At(index) == Fill(old(At(index)), back, payload)
      ensures Room(At(index)) == old(Room(At(index))) - 1
      ensures |bufsInUse| == |old(bufsInUse)|
      ensures forall i :: 0 <= i < |bufsInUse| ==> bufsInUse[i].addr == old(bufsInUse)[i].addr
      ensures old(arrived) <= arrived
    {
      hide RxInv, Pending, Filled, EndOfPacket, LengthOf, Untagged, Armed;
      FillKeeps(At(index), back, payload);
      FillPending(At(index), back, payload, arrived[taken..]);
      var d := descriptors[rdh];
      arrived := arrived + [Came(d, back, payload)];
      assert arrived[taken..] == old(arrived)[taken..] + [Came(d, back, payload)];
      bufsInUse := Landed(Rx([], bufsInUse, 0, 0, 0), d.low, payload);
      descriptors[rdh] := back;
      rdh := WrapRing(rdh, descriptors.Length);
      assert At(index).desc == Fill(old(At(index)), back, payload).desc;
      assert At(index) == Fill(old(At(index)), back, payload);
    }

    // Replaces the buffer at `index` by a new packet and arms the descriptor;
    // its old packet, with the length the device wrote, goes to the link.
    method Exchange(index: nat, np: Packet, output: Link, fl: Freelist) returns (ghost p: Packet, next: nat)
      requires ValidAt(index) && Filled(descriptors[index]) && np.addr !in Addrs(bufsInUse)
      requires output.Valid() && fl.Valid() && fl.list != output.packets
      requires bufsInUse[index].addr in fl.Live()
      modifies this`bufsInUse, this`taken, descriptors, output, output.packets, fl, fl.list
      ensures ValidAt(next) && taken == old(taken) + 1 <= |arrived|
      ensures p.addr == old(bufsInUse)[index].addr && Carries(p, arrived[old(taken)])
      ensures p == Next(old(At(index))) && At(next) == Take(old(At(index)), np)
      ensures bufsInUse == old(bufsInUse)[index := np] && next == WrapRing(index, descriptors.Length)
      ensures output.Valid() && output.Abs() == Transmitted(old(output.Abs()), p)
      ensures fl.Valid()
      ensures fl.Abs() == if |old(output.Queue())| == 1023 then Freed(old(fl.Abs()), p) else old(fl.Abs())
      ensures fl.Live() == if |old(output.Queue())| == 1023 then old(fl.Live()) - {p.addr} else old(fl.Live())
      ensures fl.stats.frees - old(fl.stats.frees) == output.txdrop - old(output.txdrop)
      ensures fl.stats.freebytes + output.txbytes == old(fl.stats.freebytes + output.txbytes) + p.length
      ensures descriptors.Length > 1
    {
      hide RxInv, Pending, Filled, EndOfPacket, LengthOf, Armed, Untagged, Carries, Addrs,
           Freelist.Valid, Freelist.Live, Link.Queue, Freed, Slot, IsPowerOfTwo, WrapRing;
      TakeKeeps(At(index), np);
      TakePending(At(index), np, arrived[taken..]);
      assert arrived[taken + 1..] == arrived[taken..][1..];
      FreedStats(fl.Abs(), Next(At(index)));
      p := Next(At(index));
      var q := bufsInUse[index];
      q := q.(length := LengthOf(descriptors[index]));
      bufsInUse := bufsInUse[index := np];
      output.Transmit(fl, q);
      descriptors[index] := Armed(np);
      next := WrapRing(index, descriptors.Length);
      taken := taken + 1;
      assert At(next).desc == Take(old(At(index)), np).desc;
      assert At(next) == Take(old(At(index)), np);
    }

    // One round of the receive loop, after whatever the device did meanwhile.
    // None: this descriptor holds no frame.
    method TakeOne(index: nat, output: Link, fl: Freelist)
      returns (r: Option<Outcome>, ghost p: Packet, next: nat)
      requires ValidAt(index)
      requires output.Valid() && fl.Valid() && fl.list != output.packets
      requires Owned(fl.Live(), bufsInUse, output.Queue())
      modifies this`bufsInUse, this`rdh, this`arrived, this`taken, descriptors,
               output, output.packets, fl, fl.list
      ensures old(arrived) <= arrived && output.Valid() && fl.Valid()
      ensures Owned(fl.Live(), bufsInUse, output.Queue())
      // Which of the four it is.
      ensures old(taken) <= |arrived|
      ensures r.None? <==> old(taken) == |arrived|
      ensures r == Some(FrameTooBig) <==> old(taken) < |arrived| && !arrived[old(taken)].whole
      ensures r == Some(OutOfPackets) <==>
                old(taken) < |arrived| && arrived[old(taken)].whole && |old(fl.Live())| == 511_000
      ensures r == Some(Batch(1)) <==>
                old(taken) < |arrived| && arrived[old(taken)].whole && |old(fl.Live())| != 511_000
      ensures r != Some(Batch(1)) ==> ValidAt(index) && taken == old(taken)
      ensures r != Some(Batch(1)) ==>
                output.Abs() == old(output.Abs()) && fl.Abs() == old(fl.Abs()) && fl.Live() == old(fl.Live())
      ensures r == Some(Batch(1)) ==> descriptors.Length > 1
      ensures r == Some(Batch(1)) ==> ValidAt(next) && next == WrapRing(index, descriptors.Length)
      ensures r == Some(Batch(1)) ==> taken == old(taken) + 1 <= |arrived| && Carries(p, arrived[old(taken)])
      ensures r == Some(Batch(1)) ==> output.Abs() == Transmitted(old(output.Abs()), p)
      ensures r == Some(Batch(1)) ==>
                fl.stats.frees - old(fl.stats.frees) == output.txdrop - old(output.txdrop)
      ensures r == Some(Batch(1)) ==>
                fl.stats.freebytes + output.txbytes == old(fl.stats.freebytes + output.txbytes) + p.length
      ensures r == Some(Batch(1)) ==>
                |fl.Live()| + output.txdrop - old(output.txdrop) == |old(fl.Live())| + 1
    {
      hide RxInv, Pending, Filled, EndOfPacket, Owned, ValidAt, Carries, Transmitted, WrapRing,
           Freelist.Valid, Freelist.Live, Link.Queue;
      p, next := Packet(0, 0, seq(10240, _ => 0)), index;
      Device(index);
      OwnedStill(fl.Live(), old(bufsInUse), bufsInUse, output.Queue());
      FrontFrame(index);
      var desc := descriptors[index];
      if !Filled(desc) {
        return None, p, next;
      }
      if !EndOfPacket(desc) {
        return Some(FrameTooBig), p, next;
      }
      var outcome;
      outcome, p, next := TakeFilled(index, output, fl);
      r := Some(outcome);
    }

    // The frame behind a filled descriptor goes out for a new packet.
    method TakeFilled(index: nat, output: Link, fl: Freelist)
      returns (r: Outcome, ghost p: Packet, next: nat)
      requires ValidAt(index) && Filled(descriptors[index])
      requires output.Valid() && fl.Valid() && fl.list != output.packets
      requires Owned(fl.Live(), bufsInUse, output.Queue())
      modifies this`bufsInUse, this`taken, descriptors, output, output.packets, fl, fl.list
      ensures output.Valid() && fl.Valid() && Owned(fl.Live(), bufsInUse, output.Queue())
      ensures r == OutOfPackets || r == Batch(1)
      ensures r == OutOfPackets <==> |old(fl.Live())| == 511_000
      ensures r == OutOfPackets ==> ValidAt(index) && taken == old(taken)
      ensures r == OutOfPackets ==>
                output.Abs() == old(output.Abs()) && fl.Abs() == old(fl.Abs()) && fl.Live() == old(fl.Live())
      ensures r == Batch(1) ==> descriptors.Length > 1
      ensures r == Batch(1) ==> ValidAt(next) && next == WrapRing(index, descriptors.Length)
      ensures r == Batch(1) ==> taken == old(taken) + 1 <= |arrived| && Carries(p, arrived[old(taken)])
      ensures r == Batch(1) ==> output.Abs() == Transmitted(old(output.Abs()), p)
      ensures r == Batch(1) ==> fl.stats.frees - old(fl.stats.frees) == output.txdrop - old(output.txdrop)
      ensures r == Batch(1) ==>
                fl.stats.freebytes + output.txbytes == old(fl.stats.freebytes + output.txbytes) + p.length
      ensures r == Batch(1) ==> |fl.Live()| + output.txdrop - old(output.txdrop) == |old(fl.Live())| + 1
    {
      hide RxInv, Pending, Filled, EndOfPacket, Owned, ValidAt, Carries, WrapRing, Addrs, InRing, Slot,
           Take, Next, Freelist.Valid, Freelist.Live, Link.Queue, Freed;
      ghost var bufs, queue, live := bufsInUse, output.Queue(), fl.Live();
      OwnedLive(live, bufs, queue, index);
      var np := fl.Allocate();
      if np.None? {
        return OutOfPackets, Packet(0, 0, seq(10240, _ => 0)), index;
      }
      OwnedNew(live, bufs, queue, np.value);
      p, next := Exchange(index, np.value, output, fl);
      OwnedTake(live, bufs, queue, index, p, np.value);
      LiveTake(live, p.addr, np.value.addr);
      r := Batch(1);
    }

    // Whether a frame waits at the index, and whether it is whole, as the two bits
    // of the descriptor say.
    lemma FrontFrame(index: nat)
      requires ValidAt(index)
      ensures taken <= |arrived|
      ensures Filled(descriptors[index]) <==> taken < |arrived|
      ensures taken < |arrived| ==> (EndOfPacket(descriptors[index]) <==> arrived[taken].whole)
    {
      FrontIs(At(index), arrived[taken..]);
    }

    // Hands the slots up to `last` back to the device and keeps the index.
    method Park(last: nat, index: nat)
      requires ValidAt(index) && last < descriptors.Length && index == WrapRing(last, descriptors.Length)
      modifies this`rdt, this`rxIndex
      ensures Valid() && rxIndex == index && At(index) == Publish(old(At(index)))
    {
      hide RxInv, Pending, Filled, Slot, WrapRing, IsPowerOfTwo;
      SlotShift(last, 1, descriptors.Length - 1, descriptors.Length);
      SlotRound(last, descriptors.Length);
      PublishKeeps(At(index));
      PublishPending(At(index), arrived[taken..]);
      WrapRingIsNext(last, descriptors.Length);
      rdt := last;
      rxIndex := index;
      assert At(index) == Publish(old(At(index)));
    }

    // Moves at most `numPackets` received packets to the link, oldest first.
    method RxBatch(output: Link, numPackets: nat, fl: Freelist)
      returns (outcome: Outcome, ghost packets: seq<Packet>)
      requires Valid() && output.Valid() && fl.Valid() && fl.list != output.packets
      requires Owned(fl.Live(), bufsInUse, output.Queue())
      modifies this, descriptors, output, output.packets, fl, fl.list
      ensures output.Valid() && fl.Valid() && Owned(fl.Live(), bufsInUse, output.Queue())
      ensures outcome.Batch? ==> Valid() && outcome.n == |packets|
      // However the call ends, these packets were moved: the oldest frames, each
      // of them whole, in order.
      ensures |packets| <= numPackets && old(arrived) <= arrived && taken == old(taken) + |packets| <= |arrived|
      ensures forall i :: 0 <= i < |packets| ==> Carries(packets[i], arrived[old(taken) + i])
      ensures forall i :: old(taken) <= i < taken ==> arrived[i].whole
      ensures output.Abs() == TransmittedAll(old(output.Abs()), packets)
      ensures output.txpackets + output.txdrop == old(output.txpackets + output.txdrop) + |packets|
      ensures fl.stats.frees - old(fl.stats.frees) == output.txdrop - old(output.txdrop)
      ensures fl.stats.freebytes + output.txbytes == old(fl.stats.freebytes + output.txbytes) + TotalBytes(packets)
      ensures |fl.Live()| + output.txdrop - old(output.txdrop) == |old(fl.Live())| + |packets|
      // And how it ends.
      ensures outcome.Batch? <==> |packets| == numPackets || taken == |arrived|
      ensures outcome == FrameTooBig <==> |packets| < numPackets && taken < |arrived| && !arrived[taken].whole
      ensures outcome == OutOfPackets <==>
                |packets| < numPackets && taken < |arrived| && arrived[taken].whole && |fl.Live()| == 511_000
      ensures ((forall i :: old(taken) <= i < |arrived| ==> arrived[i].whole)
               && |old(fl.Live())| + numPackets <= 511_000) ==> outcome.Batch?
    {
      hide RxInv, Pending, Filled, EndOfPacket, Owned, ValidAt, Carries, InRing, TransmittedAll, WrapRing, Slot,
           Freelist.Valid, Freelist.Live, Link.Queue, Waiting, Progress;
      ghost var from := Seen(output.Abs(), fl.stats, arrived, taken, |fl.Live()|);
      var index: nat, lastIndex: nat;
      outcome, packets, index, lastIndex := TakeMany(output, numPackets, fl);
      ProgressMeans(from, Seen(output.Abs(), fl.stats, arrived, taken, |fl.Live()|), packets);
      if outcome.Batch? {
        Moved(At(index), lastIndex);
        if index != lastIndex {
          Park(lastIndex, index);
        }
      }
    }

    // The receive loop, with the local indices it leaves.
    method TakeMany(output: Link, numPackets: nat, fl: Freelist)
      returns (outcome: Outcome, ghost packets: seq<Packet>, index: nat, lastIndex: nat)
      requires Valid() && output.Valid() && fl.Valid() && fl.list != output.packets
      requires Owned(fl.Live(), bufsInUse, output.Queue())
      modifies this`bufsInUse, this`rdh, this`arrived, this`taken, descriptors, output, output.packets, fl, fl.list
      ensures output.Valid() && fl.Valid() && ValidAt(index) && Owned(fl.Live(), bufsInUse, output.Queue())
      ensures |packets| <= numPackets && (outcome.Batch? ==> outcome.n == |packets|)
      ensures packets == [] ==> index == lastIndex == rxIndex && Parked(At(index))
      ensures packets != [] ==>
                1 < descriptors.Length && lastIndex < descriptors.Length
                && index == WrapRing(lastIndex, descriptors.Length)
      ensures Progress(old(Seen(output.Abs(), fl.stats, arrived, taken, |fl.Live()|)),
                       Seen(output.Abs(), fl.stats, arrived, taken, |fl.Live()|), packets)
      ensures taken <= |arrived|
      ensures outcome.Batch? <==> |packets| == numPackets || taken == |arrived|
      ensures outcome == FrameTooBig <==> |packets| < numPackets && taken < |arrived| && !arrived[taken].whole
      ensures outcome == OutOfPackets <==>
                |packets| < numPackets && taken < |arrived| && arrived[taken].whole && |fl.Live()| == 511_000
    {
      hide RxInv, Pending, Filled, EndOfPacket, Owned, ValidAt, Carries, InRing, Transmitted, WrapRing, Slot,
           Freelist.Valid, Freelist.Live, Link.Queue, Waiting, Progress;
      index, lastIndex := rxIndex, rxIndex;
      var received := 0;
      packets := [];
      ghost var from := Seen(output.Abs(), fl.stats, arrived, taken, |fl.Live()|);
      ParkedRing(At(rxIndex));
      NoProgress(from);
      while received < numPackets
        invariant 0 <= received == |packets| <= numPackets
        invariant ValidAt(index) && output.Valid() && fl.Valid()
        invariant Owned(fl.Live(), bufsInUse, output.Queue())
        invariant received == 0 ==> index == lastIndex == rxIndex && Parked(At(index))
        invariant received > 0 ==> descriptors.Length > 1
        invariant received > 0 ==> lastIndex < descriptors.Length && index == WrapRing(lastIndex, descriptors.Length)
        invariant Progress(from, Seen(output.Abs(), fl.stats, arrived, taken, |fl.Live()|), packets)
      {
        ghost var before := Seen(output.Abs(), fl.stats, arrived, taken, |fl.Live()|);
        var r;
        ghost var p;
        var next;
        r, p, next := TakeOne(index, output, fl);
        if r != Some(Batch(1)) {
          MoreCame(from, before, arrived, packets);
          outcome := if r.None? then Batch(received) else r.value;
          return;
        }
        OneMore(from, before, Seen(output.Abs(), fl.stats, arrived, taken, |fl.Live()|), packets, p);
        packets := packets + [p];
        lastIndex := index;
        index := next;
        received := received + 1;
      }
      outcome := Batch(received);
    }
  }

  // What a call of `rx_batch` moves on: the link, the counters, the
  // frames that came in, how many of them were taken, and how many packets are out.
  datatype Seen = Seen(link: Fifo, stats: Stats, arrived: seq<Arrival>, taken: nat, out: nat)

  // From `a` to `b` these packets went to the link, one for each frame.
  ghost predicate Progress(a: Seen, b: Seen, packets: seq<Packet>) {
    && a.arrived <= b.arrived && b.taken == a.taken + |packets| <= |b.arrived|
    && (forall i :: 0 <= i < |packets| ==> Carries(packets[i], b.arrived[a.taken + i]))
    && (forall i :: a.taken <= i < b.taken ==> b.arrived[i].whole)
    && b.link == TransmittedAll(a.link, packets)
    && b.stats.frees - a.stats.frees == b.link.txdrop - a.link.txdrop
    && b.stats.freebytes + b.link.txbytes == a.stats.freebytes + a.link.txbytes + TotalBytes(packets)
    && b.out + b.link.txdrop - a.link.txdrop == a.out + |packets|
  }

  lemma NoProgress(a: Seen)
    requires a.taken <= |a.arrived|
    ensures Progress(a, a, [])
  {
  }

  // The loop ends, and more frames may have come in since the last one it took.
  lemma MoreCame(a: Seen, b: Seen, arrived: seq<Arrival>, packets: seq<Packet>)
    requires Progress(a, b, packets) && b.arrived <= arrived
    ensures Progress(a, b.(arrived := arrived), packets)
  {
  }

  lemma OneMore(a: Seen, b: Seen, c: Seen, packets: seq<Packet>, p: Packet)
    requires Progress(a, b, packets) && b.arrived <= c.arrived && c.taken == b.taken + 1 <= |c.arrived|
    requires Carries(p, c.arrived[b.taken]) && c.arrived[b.taken].whole && c.link == Transmitted(b.link, p)
    requires c.stats.frees - b.stats.frees == c.link.txdrop - b.link.txdrop
    requires c.stats.freebytes + c.link.txbytes == b.stats.freebytes + b.link.txbytes + p.length
    requires c.out + c.link.txdrop - b.link.txdrop == b.out + 1
    ensures Progress(a, c, packets + [p])
  {
    hide Carries, Transmitted;
    assert (packets + [p])[..|packets|] == packets;
  }

  lemma ProgressMeans(a: Seen, b: Seen, packets: seq<Packet>)
    requires Progress(a, b, packets)
    ensures a.arrived <= b.arrived && b.taken == a.taken + |packets| <= |b.arrived|
    ensures forall i :: 0 <= i < |packets| ==> Carries(packets[i], b.arrived[a.taken + i])
    ensures forall i :: a.taken <= i < b.taken ==> b.arrived[i].whole
    ensures b.link == TransmittedAll(a.link, packets)
    ensures b.link.txpackets + b.link.txdrop == a.link.txpackets + a.link.txdrop + |packets|
    ensures b.stats.frees - a.stats.frees == b.link.txdrop - a.link.txdrop
    ensures b.stats.freebytes + b.link.txbytes == a.stats.freebytes + a.link.txbytes + TotalBytes(packets)
    ensures b.out + b.link.txdrop - a.link.txdrop == a.out + |packets|
    ensures a.link.txdrop <= b.link.txdrop
  {
    hide Carries, Transmitted;
    TransmittedAllCounts(a.link, packets);
    DropsOnlyGrow(a.link, packets);
  }

  lemma {:induction false} DropsOnlyGrow(f: Fifo, ps: seq<Packet>)
    ensures f.txdrop <= TransmittedAll(f, ps).txdrop
  {
    if ps != [] {
      DropsOnlyGrow(f, ps[..|ps| - 1]);
    }
  }

  lemma ParkedRing(s: Rx)
    requires Parked(s)
    ensures s.index < |s.desc|
  {
  }

  lemma Moved(s: Rx, last: nat)
    ensures InRing(s) && last < |s.desc| && |s.desc| > 1 ==> WrapRing(last, |s.desc|) != last
  {
    if InRing(s) && last < |s.desc| && |s.desc| > 1 {
      WrapRingIsNext(last, |s.desc|);
    }
  }

  lemma FrontIs(s: Rx, waiting: seq<Arrival>)
    requires RxInv(s) && Pending(s, waiting)
    ensures Filled(s.desc[s.index]) <==> waiting != []
    ensures waiting != [] ==> (EndOfPacket(s.desc[s.index]) <==> waiting[0].whole)
  {
    hide Filled, EndOfPacket, LengthOf, Carries, Armed, IsPowerOfTwo, Ahead, Distinct;
    SlotRound(s.index, |s.desc|);
  }

  lemma LiveTake(live: set<nat>, old': nat, new': nat)
    requires old' in live && new' !in live
    ensures |live + {new'}| == |live| + 1 && |live + {new'} - {old'}| == |live|
  {
  }

  lemma OwnedStill(live: set<nat>, a: seq<Packet>, b: seq<Packet>, queue: seq<Packet>)
    requires Owned(live, a, queue)
    requires |a| == |b| && forall i :: 0 <= i < |a| ==> b[i].addr == a[i].addr
    ensures Owned(live, b, queue)
  {
    SameAddrs(a, b);
  }

  lemma NoBuffers()
    ensures Distinct([]) && Addrs([]) == {}
  {
  }

  lemma OwnedAlone(live: set<nat>, bufs: seq<Packet>)
    requires Distinct(bufs)
    ensures Owned(live + Addrs(bufs), bufs, [])
  {
    NoBuffers();
  }

  lemma LiveSum(live: set<nat>, bufs: seq<Packet>)
    requires Distinct(bufs) && Addrs(bufs) !! live
    ensures |live + Addrs(bufs)| == |live| + |bufs|
  {
    DistinctCount(bufs);
  }

  lemma NewBuffer(live: set<nat>, bufs: seq<Packet>, np: Packet)
    requires Distinct(bufs) && Addrs(bufs) !! live && np.addr !in live + Addrs(bufs)
    ensures Distinct(bufs + [np]) && Addrs(bufs + [np]) !! live
    ensures live + Addrs(bufs + [np]) == live + Addrs(bufs) + {np.addr}
  {
    AddrsPush(bufs, np);
    forall i | 0 <= i < |bufs|
      ensures bufs[i].addr != np.addr
    {
      assert bufs[i].addr in Addrs(bufs);
    }
  }
}
