// The transmit ring of src/ixy82599/ixgbe.rs, shared with a device that
// completes descriptors in order, at any time.
module TxRing {
  import opened Words
  import opened Bits
  import opened Rings
  import opened Packets
  import opened Links

  // 32 is TX_CLEAN_BATCH.

  // ---- Descriptors ----

  // The 16 bytes of a descriptor. Driver and device lay different fields over
  // them: `buffer_addr`, `cmd_type_len` and `olinfo_status` on the way out,
  // reserved, `nxtseq_seed` and `status` on the way back.
  datatype TxDesc = TxDesc(low: nat, mid: u32, high: u32)

  // EOP, RS, IFCS, DEXT and the data descriptor type.
  const COMMAND := Shl(0x2b30, 16)

  // The descriptor-done bit of the write-back status.
  function Done(d: TxDesc): bool {
    BitAnd(d.high, 1) != 0
  }

  lemma DoneBit(d: TxDesc)
    ensures Done(d) <==> d.high % 2 == 1
  {
    hide BitAnd;
    DoneIsOdd(d.high);
  }

  lemma DoneIsOdd(x: nat)
    ensures BitAnd(x, 1) != 0 <==> x % 2 == 1
  {
  }

  // The descriptor the driver writes for a packet.
  function Handed(p: Packet): (d: TxDesc)
    ensures d.low == Untagged(p.addr)
    ensures d.mid % 0x1_0000 == p.length
    // The end of the packet, a checksum to insert, a report wanted, an advanced
    // descriptor, and the data type.
    ensures d.mid == p.length + 0x0100_0000 + 0x0200_0000 + 0x0800_0000 + 0x2000_0000 + 0x0030_0000
    ensures d.high == 0x4000 * p.length
    ensures !Done(d)
  {
    CommandWord(p.length);
    Tagging(p.length);
    PayloadWord(p.length);
    TxDesc(Untagged(p.addr), BitOr(p.length, COMMAND), Shl(p.length, 14))
  }

  lemma CommandWord(length: u16)
    ensures BitOr(length, COMMAND) < 0x1_0000_0000 && BitOr(length, COMMAND) % 0x1_0000 == length
    ensures Shl(length, 14) < 0x1_0000_0000 && BitAnd(Shl(length, 14), 1) == 0
  {
    hide BitOr, BitAnd, BitXor, Shl;
    PayloadWord(length);
    Tagging(length);
    DoneIsOdd(Shl(length, 14));
  }

  lemma PayloadWord(length: nat)
    ensures Shl(length, 14) == 0x4000 * length
  {
    hide BitOr, BitAnd, BitXor;
    ShlFour(length, 10);
    ShlFour(length, 6);
    ShlFour(length, 2);
    assert Shl(length, 1) == 2 * length;
    assert Shl(length, 2) == 4 * length;
  }

  lemma Tagging(length: u16)
    ensures BitOr(length, COMMAND) == 0x2b30_0000 + length
  {
    hide BitOr, BitAnd, BitXor;
    assert Pow2(4) == 16;
    assert Pow2(8) == 16 * Pow2(4);
    assert Pow2(12) == 16 * Pow2(8);
    assert Pow2(16) == 16 * Pow2(12);
    SplitAt(0, length, 0x2b30, 16);
    ShlValues();
    OrZero(0x2b30);
  }

  lemma OrZero(x: nat)
    ensures BitOr(0, x) == x
  {
  }

  lemma ShlValues()
    ensures Shl(0, 16) == 0 && Shl(0x2b30, 16) == 0x2b30_0000
  {
    ShlFour(0, 0);
    ShlFour(0, 4);
    ShlFour(0, 8);
    ShlFour(0, 12);
    ShlFour(0x2b30, 0);
    ShlFour(0x2b30, 4);
    ShlFour(0x2b30, 8);
    ShlFour(0x2b30, 12);
  }

  // ---- The ring ----

  // Descriptor memory, the packets handed over and not yet freed, the driver's
  // two indices, and the device's tail and head registers.
  datatype Tx = Tx(desc: seq<TxDesc>, bufs: seq<Packet>, clean: nat, tx: nat, tdt: nat, tdh: nat)

  ghost predicate InRing(s: Tx) {
    && IsPowerOfTwo(|s.desc|)
    && s.clean < |s.desc| && s.tx < |s.desc| && s.tdt < |s.desc| && s.tdh < |s.desc|
  }

  // How many of the outstanding descriptors the device has completed.
  function Completed(s: Tx): nat
    requires s.clean < |s.desc| && s.tdh < |s.desc|
  {
    Ahead(s.clean, s.tdh, |s.desc|)
  }

  // Counted from the clean index: first completed descriptors, then published
  // ones, then written ones. Those not completed still hold what was handed over.
  ghost predicate TxInv(s: Tx)
    ensures TxInv(s) ==> InRing(s)
  {
    && InRing(s)
    && Completed(s) <= Ahead(s.clean, s.tdt, |s.desc|) <= Ahead(s.clean, s.tx, |s.desc|)
    && |s.bufs| == Ahead(s.clean, s.tx, |s.desc|)
    && (forall k :: 0 <= k < Completed(s) ==> Done(s.desc[Slot(s.clean, k, |s.desc|)]))
    && (forall k :: Completed(s) <= k < |s.bufs| ==>
          s.desc[Slot(s.clean, k, |s.desc|)] == Handed(s.bufs[k]))
  }

  // ---- Steps ----

  // Driver: room for one more keeps one slot unused.
  function HasRoom(s: Tx): bool
    requires |s.desc| > 0
  {
    WrapRing(s.tx, |s.desc|) != s.clean
  }

  // Driver: write the descriptor at the tail.
  function Put(s: Tx, p: Packet): Tx
    requires s.tx < |s.desc|
  {
    s.(desc := s.desc[s.tx := Handed(p)], bufs := s.bufs + [p], tx := WrapRing(s.tx, |s.desc|))
  }

  // Driver: tell the device about everything written.
  function Publish(s: Tx): Tx { s.(tdt := s.tx) }

  // Device: send the frame of the head descriptor and write it back. The write
  // sets the done bit and may leave anything else.
  function Complete(s: Tx, back: TxDesc): Tx
    requires s.tdh < |s.desc|
  {
    s.(desc := s.desc[s.tdh := back], tdh := WrapRing(s.tdh, |s.desc|))
  }

  function Cleanable(s: Tx): nat
    requires s.clean < |s.desc| && s.tx < |s.desc|
  {
    Ahead(s.clean, s.tx, |s.desc|)
  }

  // Driver: the descriptor whose done bit stands for the next batch of 32.
  function CleanupTo(s: Tx): nat {
    var to := s.clean + 32 - 1;
    if to >= |s.desc| then to - |s.desc| else to
  }

  function CanClean(s: Tx): bool
    requires s.clean < |s.desc| && s.tx < |s.desc|
  {
    Cleanable(s) >= 32 && Done(s.desc[CleanupTo(s)])
  }

  // Driver: free the oldest batch. The `min` with the buffers in use is kept.
  function CleanCount(s: Tx): nat { Min(32, |s.bufs|) }

  function Cleaned(s: Tx): Tx
    requires |s.desc| > 0
  {
    s.(bufs := s.bufs[CleanCount(s)..], clean := WrapRing(CleanupTo(s), |s.desc|))
  }

  lemma PutKeeps(s: Tx, p: Packet)
    requires TxInv(s) && HasRoom(s)
    ensures TxInv(Put(s, p)) && Completed(Put(s, p)) == Completed(s)
    ensures |s.bufs| + 1 < |s.desc|
    // The slot written is none of the outstanding ones.
    ensures forall k :: 0 <= k < |s.bufs| ==> Slot(s.clean, k, |s.desc|) != s.tx
  {
    hide Slot, Ahead, WrapRing, Handed, Done, IsPowerOfTwo;
    var n := |s.desc|;
    WrapRingIsNext(s.tx, n);
    AheadNext(s.clean, s.tx, n);
    forall k | 0 <= k < |s.bufs|
      ensures Slot(s.clean, k, n) != s.tx
    {
      SlotsApart(s.clean, k, |s.bufs|, n);
    }
  }

  lemma FullIs(s: Tx)
    requires TxInv(s)
    ensures HasRoom(s) <==> |s.bufs| + 1 < |s.desc|
    ensures |s.bufs| + 1 <= |s.desc|
  {
    hide Slot, Ahead, WrapRing, Handed, Done, IsPowerOfTwo;
    AheadNext(s.clean, s.tx, |s.desc|);
    WrapRingIsNext(s.tx, |s.desc|);
  }

  lemma PublishKeeps(s: Tx)
    requires TxInv(s)
    ensures TxInv(Publish(s)) && Completed(Publish(s)) == Completed(s)
  {
  }

  lemma CompleteKeeps(s: Tx, back: TxDesc)
    requires TxInv(s) && s.tdh != s.tdt && Done(back)
    ensures TxInv(Complete(s, back)) && Completed(Complete(s, back)) == Completed(s) + 1
    // What the device reads is the oldest packet it has not completed.
    ensures Completed(s) < |s.bufs| && s.desc[s.tdh] == Handed(s.bufs[Completed(s)])
  {
    hide Slot, Ahead, WrapRing, Handed, Done, IsPowerOfTwo;
    var n, done := |s.desc|, Completed(s);
    assert Slot(s.clean, done, n) == s.tdh && Slot(s.clean, Ahead(s.clean, s.tdt, n), n) == s.tdt;
    WrapRingIsNext(s.tdh, n);
    AheadNext(s.clean, s.tdh, n);
    forall k | 0 <= k < |s.bufs| && k != done
      ensures Slot(s.clean, k, n) != s.tdh
    {
      SlotsApart(s.clean, k, done, n);
    }
  }

  // A set done bit on the 32nd descriptor means that all 32 are completed: the
  // descriptors beyond the completed ones were written with the bit clear.
  lemma CleanKeeps(s: Tx)
    requires TxInv(s) && CanClean(s)
    ensures Completed(s) >= 32 && CleanCount(s) == 32
    ensures TxInv(Cleaned(s)) && Completed(Cleaned(s)) == Completed(s) - 32
  {
    hide Handed, Done, IsPowerOfTwo, WrapRing;
    BatchCompleted(s);
    WrapRingIsNext(CleanupTo(s), |s.desc|);
    SlotShift(s.clean, 31, 1, |s.desc|);
    assert Cleaned(s) == Advanced(s, 32);
    AdvancedKeeps(s, 32);
  }

  lemma BatchCompleted(s: Tx)
    requires TxInv(s) && CanClean(s)
    ensures Completed(s) >= 32 && |s.bufs| >= 32 && CleanupTo(s) == Slot(s.clean, 31, |s.desc|)
  {
    hide TxInv, Done, IsPowerOfTwo;
    OutstandingCount(s);
    NotDoneYet(s, 31);
  }

  // An outstanding descriptor that is not completed is as it was handed over.
  lemma NotDoneYet(s: Tx, k: nat)
    requires TxInv(s) && k < |s.bufs|
    ensures k < |s.desc| && Completed(s) <= k ==> !Done(s.desc[Slot(s.clean, k, |s.desc|)])
  {
    hide Done, Handed, IsPowerOfTwo, Slot, Ahead;
  }

  // Moving the clean index past `j` completed descriptors.
  ghost function Advanced(s: Tx, j: nat): Tx
    requires InRing(s) && j <= |s.bufs| && j <= |s.desc|
  {
    s.(bufs := s.bufs[j..], clean := Slot(s.clean, j, |s.desc|))
  }

  lemma AdvancedKeeps(s: Tx, j: nat)
    requires TxInv(s) && j <= Completed(s)
    ensures TxInv(Advanced(s, j)) && Completed(Advanced(s, j)) == Completed(s) - j
  {
    hide Slot, Ahead, Handed, Done, IsPowerOfTwo;
    var s', n := Advanced(s, j), |s.desc|;
    AheadLess(s.clean, j, s.tdh, n);
    AheadLess(s.clean, j, s.tdt, n);
    AheadLess(s.clean, j, s.tx, n);
    forall k | 0 <= k < |s'.bufs|
      ensures Slot(s'.clean, k, n) == Slot(s.clean, k + j, n)
    {
      SlotShift(s.clean, j, k, n);
    }
  }

  // ---- Whole runs, with the device interleaved at will ----

  datatype TxEvent = DriverPut(p: Packet) | DriverPublish | DriverClean | DeviceComplete(back: TxDesc)

  // What the device puts on the wire for a descriptor: the buffer it was given
  // and the length it was told.
  datatype Sent = Sent(address: nat, length: u16)

  datatype TxHistory = TxHistory(s: Tx, put: seq<Packet>, wire: seq<Sent>, freed: seq<Packet>)

  // None: the step is not enabled.
  function TxStep(h: TxHistory, e: TxEvent): Option<TxHistory>
  {
    if !(h.s.clean < |h.s.desc| && h.s.tx < |h.s.desc| && h.s.tdh < |h.s.desc|) then None
    else match e
    case DriverPut(p) =>
      if !HasRoom(h.s) then None else Some(h.(s := Put(h.s, p), put := h.put + [p]))
    case DriverPublish => Some(h.(s := Publish(h.s)))
    case DriverClean =>
      if !CanClean(h.s) then None
      else Some(h.(s := Cleaned(h.s), freed := h.freed + h.s.bufs[..CleanCount(h.s)]))
    case DeviceComplete(back) =>
      if h.s.tdh == h.s.tdt || !Done(back) then None
      else
        var d := h.s.desc[h.s.tdh];
        Some(h.(s := Complete(h.s, back), wire := h.wire + [Sent(d.low, d.mid % 0x1_0000)]))
  }

  // Frames leave in the order handed over, each from its packet's own memory and
  // with its length, and a packet is freed only after its frame left.
  ghost predicate TxSafe(h: TxHistory) {
    && TxInv(h.s)
    && h.put == h.freed + h.s.bufs
    && |h.wire| == |h.freed| + Completed(h.s) <= |h.put|
    && (forall i :: 0 <= i < |h.wire| ==> h.wire[i] == Sent(Untagged(h.put[i].addr), h.put[i].length))
  }

  lemma TxStepSafe(h: TxHistory, e: TxEvent)
    requires TxSafe(h) && TxStep(h, e).Some?
    ensures TxSafe(TxStep(h, e).value)
  {
    match e {
      case DriverPut(p) => PutSafe(h, p);
      case DriverPublish => PublishKeeps(h.s);
      case DriverClean => CleanSafe(h);
      case DeviceComplete(back) => CompleteSafe(h, back);
    }
  }

  lemma PutSafe(h: TxHistory, p: Packet)
    requires TxSafe(h) && HasRoom(h.s)
    ensures TxSafe(h.(s := Put(h.s, p), put := h.put + [p]))
  {
    hide Handed, TxInv, WrapRing, IsPowerOfTwo;
    PutKeeps(h.s, p);
  }

  lemma CleanSafe(h: TxHistory)
    requires TxSafe(h) && CanClean(h.s)
    ensures TxSafe(h.(s := Cleaned(h.s), freed := h.freed + h.s.bufs[..CleanCount(h.s)]))
  {
    hide TxInv, CanClean, WrapRing, Ahead, IsPowerOfTwo;
    CleanKeeps(h.s);
    assert h.s.bufs == h.s.bufs[..32] + h.s.bufs[32..];
  }

  lemma CompleteSafe(h: TxHistory, back: TxDesc)
    requires TxSafe(h) && h.s.tdh != h.s.tdt && Done(back)
    ensures var d := h.s.desc[h.s.tdh];
            TxSafe(h.(s := Complete(h.s, back), wire := h.wire + [Sent(d.low, d.mid % 0x1_0000)]))
  {
    hide Handed, Done, TxInv, WrapRing, IsPowerOfTwo, Ahead;
    CompleteKeeps(h.s, back);
    assert h.put[|h.wire|] == h.s.bufs[Completed(h.s)];
  }

  // A fresh ring: descriptor memory is filled with ones, so every done bit is
  // set, and stays harmless.
  function Started(n: nat): TxHistory {
    TxHistory(Tx(seq(n, _ => TxDesc(0xffff_ffff_ffff_ffff, 0xffff_ffff, 0xffff_ffff)), [], 0, 0, 0, 0),
              [], [], [])
  }

  function TxRun(n: nat, es: seq<TxEvent>): Option<TxHistory> {
    if es == [] then Some(Started(n))
    else match TxRun(n, es[..|es| - 1])
         case None => None
         case Some(h) => TxStep(h, es[|es| - 1])
  }

  lemma {:induction false} TxRunSafe(n: nat, es: seq<TxEvent>)
    requires IsPowerOfTwo(n) && TxRun(n, es).Some?
    ensures TxSafe(TxRun(n, es).value)
  {
    if es != [] {
      TxRunSafe(n, es[..|es| - 1]);
      TxStepSafe(TxRun(n, es[..|es| - 1]).value, es[|es| - 1]);
    }
  }

  function WireOf(ps: seq<Packet>): (w: seq<Sent>)
    ensures |w| == |ps|
  {
    seq(|ps|, i requires 0 <= i < |ps| => Sent(Untagged(ps[i].addr), ps[i].length))
  }

  // ---- The driver's queue ----

  class TxQueue {
    const descriptors: array<TxDesc>
    var bufsInUse: seq<Packet>
    var cleanIndex: nat
    var txIndex: nat
    // The device's registers, and the frames it has sent.
    var tdt: nat
    var tdh: nat
    ghost var wire: seq<Sent>

    ghost function Abs(): Tx
      reads this, descriptors
    {
      Tx(descriptors[..], bufsInUse, cleanIndex, txIndex, tdt, tdh)
    }

    ghost predicate Valid()
      reads this, descriptors
      ensures Valid() ==> InRing(Abs()) && |Abs().desc| == descriptors.Length
    {
      TxInv(Abs())
    }

    // Ring memory starts out filled with ones.
    constructor (numDescriptors: nat)
      requires numDescriptors > 0
      ensures fresh(descriptors) && descriptors.Length == numDescriptors
      ensures bufsInUse == [] && cleanIndex == 0 && txIndex == 0 && wire == []
      ensures descriptors[..] == Started(numDescriptors).s.desc
    {
      descriptors := new TxDesc[numDescriptors](_ =>
        TxDesc(0xffff_ffff_ffff_ffff, 0xffff_ffff, 0xffff_ffff));
      bufsInUse, cleanIndex, txIndex, tdt, tdh, wire := [], 0, 0, 0, 0, [];
    }

    // False is the error "number of queue entries must be a power of 2".
    method Start() returns (ok: bool)
      requires descriptors.Length > 0 && bufsInUse == [] && cleanIndex == 0 && txIndex == 0
      modifies this`tdt, this`tdh
      ensures ok <==> IsPowerOfTwo(descriptors.Length)
      ensures ok ==> tdt == 0 && tdh == 0
      ensures ok ==> Valid() && Completed(Abs()) == 0
    {
      PowerOfTwoTest(descriptors.Length);
      if BitAnd(descriptors.Length, descriptors.Length - 1) != 0 {
        return false;
      }
      tdh, tdt := 0, 0;
      ok := true;
    }

    // The device at work: any number of completions, at any time.
    method Device()
      requires Valid()
      modifies this`tdh, this`wire, descriptors
      ensures Valid() && Completed(Abs()) >= old(Completed(Abs())) && Completed(Abs()) <= |bufsInUse|
      ensures wire == old(wire) + WireOf(bufsInUse[old(Completed(Abs()))..Completed(Abs())])
    {
      hide TxInv, Done, WrapRing, Ahead, IsPowerOfTwo, Complete, WireOf;
      ghost var from := Completed(Abs());
      WithinBufs(Abs());
      WireNone(bufsInUse, from);
      while tdh != tdt
        invariant Valid() && from <= Completed(Abs()) <= |bufsInUse|
        invariant wire == old(wire) + WireOf(bufsInUse[from..Completed(Abs())])
        decreases |bufsInUse| - Completed(Abs())
      {
        if * {
          break;
        }
        var back: TxDesc := *;
        if Done(back) {
          WireMore(old(wire), bufsInUse, from, Completed(Abs()));
          CompleteOne(back);
        } else {
          break;
        }
      }
    }

    method CompleteOne(back: TxDesc)
      requires Valid() && tdh != tdt && Done(back)
      modifies this`tdh, this`wire, descriptors
      ensures Valid() && Abs() == Complete(old(Abs()), back)
      ensures Completed(Abs()) == old(Completed(Abs())) + 1 <= |bufsInUse|
      ensures wire == old(wire) + WireOf([bufsInUse[old(Completed(Abs()))]])
    {
      hide TxInv, Handed, Untagged, Done, WrapRing, Ahead, IsPowerOfTwo;
      CompleteKeeps(Abs(), back);
      var d := descriptors[tdh];
      wire := wire + [Sent(d.low, d.mid % 0x1_0000)];
      descriptors[tdh] := back;
      tdh := WrapRing(tdh, descriptors.Length);
      assert Abs().desc == Complete(old(Abs()), back).desc;
    }

    // Frees the packets of the oldest batch.
    method FreeBatch(fl: Freelist)
      requires fl.Valid() && Distinct(bufsInUse) && Addrs(bufsInUse) <= fl.Live()
      modifies this`bufsInUse, fl, fl.list
      ensures fl.Valid() && bufsInUse == old(bufsInUse)[Min(32, |old(bufsInUse)|)..]
      ensures fl.Abs() == FreedAll(old(fl.Abs()), old(bufsInUse)[..Min(32, |old(bufsInUse)|)])
      ensures fl.Live() == old(fl.Live()) - Addrs(old(bufsInUse)[..Min(32, |old(bufsInUse)|)])
    {
      hide FreedAll, Freed, Freelist.Valid, Freelist.Live, Distinct, Addrs, FreedPart;
      ghost var all, pool, live := bufsInUse, fl.Abs(), fl.Live();
      FreedNone(all, pool, live);
      var count := Min(32, |bufsInUse|);
      for i := 0 to count
        invariant fl.Valid() && bufsInUse == all[i..]
        invariant FreedPart(all, i, pool, live, fl.Abs(), fl.Live())
      {
        FreedNext(all, i, pool, live, fl.Abs(), fl.Live());
        var p := bufsInUse[0];
        bufsInUse := bufsInUse[1..];
        fl.Free(p);
      }
      FreedSoFar(all, count, pool, live, fl.Abs(), fl.Live());
    }

    // The 32nd-oldest descriptor is not done.
    ghost predicate BatchNotDone()
      reads this, descriptors
    {
      CleanupTo(Abs()) < descriptors.Length && !Done(descriptors[CleanupTo(Abs())])
    }

    // Frees whole batches from the oldest end. The device may complete
    // descriptors between any two looks at their done bits.
    method CleanTxQueue(fl: Freelist) returns (clean: nat, ghost batches: nat)
      requires Valid() && fl.Valid() && Distinct(bufsInUse) && Addrs(bufsInUse) <= fl.Live()
      modifies this`bufsInUse, this`cleanIndex, this`tdh, this`wire, descriptors, fl, fl.list
      ensures Valid() && fl.Valid() && clean == cleanIndex
      ensures 32 * batches <= |old(bufsInUse)| && bufsInUse == old(bufsInUse)[32 * batches..]
      ensures fl.Abs() == FreedAll(old(fl.Abs()), old(bufsInUse)[..32 * batches])
      ensures fl.Live() == old(fl.Live()) - Addrs(old(bufsInUse)[..32 * batches])
      // At the end fewer than a batch is outstanding, or the descriptor that
      // stands for the next batch read as not done.
      ensures |bufsInUse| < 32 || BatchNotDone()
      // It stops short of nothing that was completed on entry, and frees nothing
      // that is not completed at the end.
      ensures |bufsInUse| < 32 || old(Completed(Abs())) < 32 * batches + 32
      ensures 32 * batches <= old(Completed(Abs())) + |wire| - |old(wire)|
    {
      hide TxInv, FreedAll, Freed, Freelist.Valid, Freelist.Live, Distinct, Addrs, CanClean, FreedPart, BatchNotDone;
      ghost var all, pool, live := bufsInUse, fl.Abs(), fl.Live();
      FreedNone(all, pool, live);
      batches := 0;
      while true
        invariant Valid() && fl.Valid() && 32 * batches <= |all|
        invariant bufsInUse == all[32 * batches..]
        invariant FreedPart(all, 32 * batches, pool, live, fl.Abs(), fl.Live())
        invariant Completed(Abs()) + 32 * batches == old(Completed(Abs())) + |wire| - |old(wire)|
        invariant |wire| >= |old(wire)|
        decreases |bufsInUse|
      {
        BatchOwned(all, 32 * batches, pool, live, fl.Abs(), fl.Live());
        ghost var pool', live' := fl.Abs(), fl.Live();
        var cleaned := CleanOnce(fl);
        if !cleaned {
          break;
        }
        BatchMore(all, 32 * batches, pool, live, pool', live');
        batches := batches + 1;
      }
      FreedSoFar(all, 32 * batches, pool, live, fl.Abs(), fl.Live());
      clean := cleanIndex;
    }

    // One round of the loop; false is the way out of it.
    method CleanOnce(fl: Freelist) returns (cleaned: bool)
      requires Valid() && fl.Valid() && Distinct(bufsInUse) && Addrs(bufsInUse) <= fl.Live()
      modifies this`bufsInUse, this`cleanIndex, this`tdh, this`wire, descriptors, fl, fl.list
      ensures Valid() && fl.Valid()
      ensures cleaned ==> 32 <= |old(bufsInUse)| && bufsInUse == old(bufsInUse)[32..]
      ensures cleaned ==> fl.Abs() == FreedAll(old(fl.Abs()), old(bufsInUse)[..32])
      ensures cleaned ==> fl.Live() == old(fl.Live()) - Addrs(old(bufsInUse)[..32])
      ensures !cleaned ==> bufsInUse == old(bufsInUse) && fl.Abs() == old(fl.Abs())
      ensures !cleaned ==> fl.Live() == old(fl.Live()) && cleanIndex == old(cleanIndex)
      ensures !cleaned ==> |bufsInUse| < 32 || BatchNotDone()
      ensures !cleaned ==> |bufsInUse| < 32 || old(Completed(Abs())) < 32
      ensures Completed(Abs()) + (if cleaned then 32 else 0)
           == old(Completed(Abs())) + |wire| - |old(wire)|
      ensures |wire| >= |old(wire)|
    {
      hide TxInv, FreedAll, Freed, Freelist.Valid, Freelist.Live, Distinct, Addrs,
           Done, CanClean, WrapRing, Ahead, IsPowerOfTwo, Cleaned;
      var cleanable := txIndex - cleanIndex;
      if cleanable < 0 {
        cleanable := cleanable + descriptors.Length;
      }
      OutstandingCount(Abs());
      if cleanable < 32 {
        return false;
      }
      var cleanupTo := cleanIndex + 32 - 1;
      if cleanupTo >= descriptors.Length {
        cleanupTo := cleanupTo - descriptors.Length;
      }
      cleaned := CleanIfDone(fl, cleanupTo);
    }

    // The look at the done bit that stands for the batch.
    method CleanIfDone(fl: Freelist, cleanupTo: nat) returns (cleaned: bool)
      requires Valid() && |bufsInUse| >= 32 && cleanupTo == CleanupTo(Abs()) < descriptors.Length
      requires fl.Valid() && Distinct(bufsInUse) && Addrs(bufsInUse) <= fl.Live()
      modifies this`bufsInUse, this`cleanIndex, this`tdh, this`wire, descriptors, fl, fl.list
      ensures Valid() && fl.Valid()
      ensures cleaned ==> 32 <= |old(bufsInUse)| && bufsInUse == old(bufsInUse)[32..]
      ensures cleaned ==> fl.Abs() == FreedAll(old(fl.Abs()), old(bufsInUse)[..32])
      ensures cleaned ==> fl.Live() == old(fl.Live()) - Addrs(old(bufsInUse)[..32])
      ensures !cleaned ==> bufsInUse == old(bufsInUse) && fl.Abs() == old(fl.Abs())
      ensures !cleaned ==> fl.Live() == old(fl.Live()) && cleanIndex == old(cleanIndex)
      ensures !cleaned ==> BatchNotDone() && old(Completed(Abs())) < 32
      ensures Completed(Abs()) + (if cleaned then 32 else 0)
           == old(Completed(Abs())) + |wire| - |old(wire)|
      ensures |wire| >= |old(wire)|
    {
      hide TxInv, FreedAll, Freed, Freelist.Valid, Freelist.Live, Distinct, Addrs,
           Done, CanClean, WrapRing, Ahead, IsPowerOfTwo, Cleaned;
      Device();
      var status := descriptors[cleanupTo];
      if !Done(status) {
        OutstandingCount(Abs());
        NotYet(Abs());
        return false;
      }
      BatchReady(Abs());
      Retire(fl, cleanupTo);
      cleaned := true;
    }

    // The branch on a set done bit.
    method Retire(fl: Freelist, cleanupTo: nat)
      requires Valid() && CanClean(Abs()) && cleanupTo == CleanupTo(Abs())
      requires fl.Valid() && Distinct(bufsInUse) && Addrs(bufsInUse) <= fl.Live()
      modifies this`bufsInUse, this`cleanIndex, fl, fl.list
      ensures Valid() && fl.Valid() && Abs() == Cleaned(old(Abs()))
      ensures 32 <= |old(bufsInUse)| && bufsInUse == old(bufsInUse)[32..]
      ensures Completed(Abs()) == old(Completed(Abs())) - 32
      ensures fl.Abs() == FreedAll(old(fl.Abs()), old(bufsInUse)[..32])
      ensures fl.Live() == old(fl.Live()) - Addrs(old(bufsInUse)[..32])
    {
      hide TxInv, FreedAll, Freed, Freelist.Valid, Freelist.Live, Distinct, Addrs, CanClean;
      CleanKeeps(Abs());
      FreeBatch(fl);
      cleanIndex := WrapRing(cleanupTo, descriptors.Length);
      assert Abs() == Cleaned(old(Abs()));
    }

    // The body of the send loop: one descriptor, one buffer in use.
    method Hand(p: Packet)
      requires Valid() && HasRoom(Abs())
      modifies this`txIndex, this`bufsInUse, descriptors
      ensures Valid() && Abs() == Put(old(Abs()), p) && Completed(Abs()) == old(Completed(Abs()))
    {
      hide TxInv, Handed, WrapRing, Ahead, IsPowerOfTwo;
      PutKeeps(Abs(), p);
      var curIndex := txIndex;
      txIndex := WrapRing(txIndex, descriptors.Length);
      descriptors[curIndex] := Handed(p);
      bufsInUse := bufsInUse + [p];
      assert Abs().desc == Put(old(Abs()), p).desc;
    }

    // Moves packets from the link to the ring until the link is empty or one
    // slot is left, then tells the device.
    method TxBatch(input: Link, fl: Freelist) returns (sent: nat, ghost batches: nat)
      requires Valid() && fl.Valid() && input.Valid() && fl.list != input.packets
      requires Distinct(bufsInUse) && Addrs(bufsInUse) <= fl.Live()
      modifies this, descriptors, input, fl, fl.list
      ensures Valid() && fl.Valid() && input.Valid()
      ensures 32 * batches <= |old(bufsInUse)| && sent <= |old(input.Queue())|
      ensures bufsInUse == old(bufsInUse)[32 * batches..] + old(input.Queue())[..sent]
      ensures input.Abs() == ReceivedAll(old(input.Abs()), sent)
      ensures fl.Abs() == FreedAll(old(fl.Abs()), old(bufsInUse)[..32 * batches])
      ensures fl.Live() == old(fl.Live()) - Addrs(old(bufsInUse)[..32 * batches])
      // Every whole batch completed on entry is freed, and nothing that is not
      // completed at the end.
      ensures |old(bufsInUse)| - 32 * batches < 32 || old(Completed(Abs())) < 32 * batches + 32
      ensures 32 * batches <= old(Completed(Abs())) + |wire| - |old(wire)|
      // The smaller of the packets waiting and the slots free after that, of
      // which one stays unused.
      ensures sent == |old(input.Queue())| || sent == descriptors.Length - 1 - (|old(bufsInUse)| - 32 * batches)
      ensures sent <= descriptors.Length - 1 - (|old(bufsInUse)| - 32 * batches)
      ensures tdt == txIndex
    {
      hide TxInv, FreedAll, Freed, Freelist.Valid, Freelist.Live, Freelist.Abs, Distinct, Addrs,
           Link.Queue, Link.Valid, Link.Abs, Received, ReceivedAll, Valid;
      var curIndex, cleanIndex' := txIndex, 0;
      cleanIndex', batches := CleanTxQueue(fl);
      sent := SendAll(input, curIndex, cleanIndex');
      Tell();
    }

    // The write of the tail register.
    method Tell()
      requires Valid()
      modifies this`tdt
      ensures Valid() && tdt == txIndex
    {
      PublishKeeps(Abs());
      tdt := txIndex;
    }

    // One round of the send loop.
    method SendOne(input: Link)
      requires Valid() && input.Valid() && input.Queue() != [] && HasRoom(Abs())
      modifies this`txIndex, this`bufsInUse, this`tdh, this`wire, descriptors, input
      ensures Valid() && input.Valid() && txIndex == WrapRing(old(txIndex), descriptors.Length)
      ensures bufsInUse == old(bufsInUse) + [old(input.Queue())[0]]
      ensures input.Abs() == Received(old(input.Abs()))
      ensures old(wire) <= wire
    {
      hide TxInv, Link.Queue, Handed, WrapRing, Ahead, IsPowerOfTwo, WireOf;
      Device();
      var p := input.Receive();
      Hand(p.value);
    }

    // The send loop.
    method SendAll(input: Link, txFrom: nat, clean: nat) returns (sent: nat)
      requires Valid() && input.Valid() && txFrom == txIndex && clean == cleanIndex
      modifies this`txIndex, this`bufsInUse, this`tdh, this`wire, descriptors, input
      ensures Valid() && input.Valid() && sent <= |old(input.Queue())|
      ensures bufsInUse == old(bufsInUse) + old(input.Queue())[..sent]
      ensures input.Abs() == ReceivedAll(old(input.Abs()), sent)
      // The smaller of the packets waiting and the free slots, of which one stays unused.
      ensures sent == |old(input.Queue())| || sent == descriptors.Length - 1 - |old(bufsInUse)|
      ensures sent <= |old(input.Queue())| && sent <= descriptors.Length - 1 - |old(bufsInUse)|
      ensures |wire| >= |old(wire)|
    {
      hide TxInv, Link.Queue, Received, ReceivedAll, WrapRing, Ahead, IsPowerOfTwo, SentSome;
      ghost var before, held := input.Abs(), bufsInUse;
      NoneSent(before, held);
      var curIndex := txFrom;
      sent := 0;
      FullIs(Abs());
      while true
        invariant Valid() && input.Valid() && curIndex == txIndex
        invariant SentSome(before, held, sent, input.Abs(), bufsInUse)
        invariant |wire| >= |old(wire)| && |bufsInUse| < descriptors.Length
        decreases |before.queue| - sent
      {
        SentMeans(before, held, sent, input.Abs(), bufsInUse);
        var empty := input.Empty();
        if empty {
          break;
        }
        var nextIndex := WrapRing(curIndex, descriptors.Length);
        FullIs(Abs());
        if clean == nextIndex {
          break;
        }
        OneSent(before, held, sent, input.Abs(), bufsInUse);
        SendOne(input);
        FullIs(Abs());
        curIndex := nextIndex;
        sent := sent + 1;
      }
    }
  }

  // So many packets came off the link and are in use behind those before.
  ghost predicate SentSome(f: Fifo, held: seq<Packet>, sent: nat, g: Fifo, bufs: seq<Packet>) {
    sent <= |f.queue| && g == ReceivedAll(f, sent) && bufs == held + f.queue[..sent]
  }

  lemma NoneSent(f: Fifo, held: seq<Packet>)
    ensures SentSome(f, held, 0, f, held)
  {
  }

  lemma OneSent(f: Fifo, held: seq<Packet>, sent: nat, g: Fifo, bufs: seq<Packet>)
    requires SentSome(f, held, sent, g, bufs) && g.queue != []
    ensures SentSome(f, held, sent + 1, Received(g), bufs + [g.queue[0]])
  {
    hide Received;
    assert f.queue[..sent + 1] == f.queue[..sent] + [f.queue[sent]];
  }

  lemma SentMeans(f: Fifo, held: seq<Packet>, sent: nat, g: Fifo, bufs: seq<Packet>)
    requires SentSome(f, held, sent, g, bufs)
    ensures sent <= |f.queue| && g == ReceivedAll(f, sent) && bufs == held + f.queue[..sent]
    ensures g.queue == [] <==> sent == |f.queue|
  {
    hide Received, ReceivedAll;
  }

  lemma WithinBufs(s: Tx)
    requires TxInv(s)
    ensures Completed(s) <= |s.bufs|
  {
  }

  lemma WireNone(bufs: seq<Packet>, i: nat)
    ensures i <= |bufs| ==> WireOf(bufs[i..i]) == []
  {
  }

  lemma WireMore(wire: seq<Sent>, bufs: seq<Packet>, from: nat, to: nat)
    ensures from <= to < |bufs| ==>
              wire + WireOf(bufs[from..to]) + WireOf([bufs[to]]) == wire + WireOf(bufs[from..to + 1])
  {
    if from <= to < |bufs| {
      assert bufs[from..to + 1] == bufs[from..to] + [bufs[to]];
      assert WireOf(bufs[from..to + 1]) == WireOf(bufs[from..to]) + WireOf([bufs[to]]);
    }
  }

  lemma OutstandingCount(s: Tx)
    requires TxInv(s)
    ensures |s.bufs| == s.tx - s.clean + (if s.tx < s.clean then |s.desc| else 0) && Completed(s) <= |s.bufs|
    ensures |s.bufs| >= 32 ==> CleanupTo(s) == Slot(s.clean, 31, |s.desc|) < |s.desc|
  {
  }

  lemma BatchReady(s: Tx)
    requires TxInv(s) && |s.bufs| >= 32 && CleanupTo(s) < |s.desc| && Done(s.desc[CleanupTo(s)])
    ensures CanClean(s)
  {
  }

  lemma NotYet(s: Tx)
    requires TxInv(s) && |s.bufs| >= 32 && !Done(s.desc[Slot(s.clean, 31, |s.desc|)])
    ensures Completed(s) < 32
  {
  }

  lemma BatchOwned(all: seq<Packet>, from: nat, pool: Pool, live: set<nat>, pool': Pool, live': set<nat>)
    requires FreedPart(all, from, pool, live, pool', live') && Distinct(all) && Addrs(all) <= live
    ensures from <= |all| && Distinct(all[from..]) && Addrs(all[from..]) <= live'
  {
    hide FreedAll;
  }

  lemma BatchMore(all: seq<Packet>, from: nat, pool: Pool, live: set<nat>, pool': Pool, live': set<nat>)
    requires FreedPart(all, from, pool, live, pool', live') && from + 32 <= |all|
    ensures var batch := all[from..][..32];
            FreedPart(all, from + 32, pool, live, FreedAll(pool', batch), live' - Addrs(batch))
    ensures all[from..][32..] == all[from + 32..]
  {
    hide FreedAll, Addrs;
    assert all[..from + 32] == all[..from] + all[from..][..32];
    FreedAllJoin(pool, all[..from], all[from..][..32]);
    AddrsAppend(all[..from], all[from..][..32]);
  }
}
