// Links of src/link.rs: a ring buffer of 1024 slots, the FIFO it refines, and
// what its counters say.
module Links {
  import opened Bits
  import opened Packets

  // 1024 is LINK_RING_SIZE, and 1023 LINK_MAX_PACKETS.

  // ---- The FIFO ----

  datatype Fifo = Fifo(queue: seq<Packet>,
                       txpackets: nat, txbytes: nat, txdrop: nat,
                       rxpackets: nat, rxbytes: nat)

  const EMPTY := Fifo([], 0, 0, 0, 0, 0)

  // A full link counts a drop and keeps its queue.
  function Transmitted(f: Fifo, p: Packet): Fifo {
    if |f.queue| == 1023 then f.(txdrop := f.txdrop + 1)
    else f.(queue := f.queue + [p], txpackets := f.txpackets + 1, txbytes := f.txbytes + p.length)
  }

  function Received(f: Fifo): Fifo
    requires f.queue != []
  {
    f.(queue := f.queue[1..], rxpackets := f.rxpackets + 1, rxbytes := f.rxbytes + f.queue[0].length)
  }

  // The next `n` packets taken off.
  function ReceivedAll(f: Fifo, n: nat): (r: Fifo)
    requires n <= |f.queue|
    ensures r.queue == f.queue[n..]
  {
    if n == 0 then f else Received(ReceivedAll(f, n - 1))
  }

  lemma {:induction false} ReceivedAllCounts(f: Fifo, n: nat)
    requires n <= |f.queue|
    ensures var r := ReceivedAll(f, n);
            && r.rxpackets == f.rxpackets + n && r.rxbytes == f.rxbytes + TotalBytes(f.queue[..n])
            && r.txpackets == f.txpackets && r.txbytes == f.txbytes && r.txdrop == f.txdrop
  {
    if n > 0 {
      ReceivedAllCounts(f, n - 1);
      assert f.queue[..n][..n - 1] == f.queue[..n - 1];
    }
  }

  // A series of packets put on one link.
  function TransmittedAll(f: Fifo, ps: seq<Packet>): Fifo {
    if ps == [] then f else Transmitted(TransmittedAll(f, ps[..|ps| - 1]), ps[|ps| - 1])
  }

  // Every packet handed to a link is counted as sent or as dropped.
  lemma {:induction false} TransmittedAllCounts(f: Fifo, ps: seq<Packet>)
    ensures TransmittedAll(f, ps).txpackets + TransmittedAll(f, ps).txdrop
         == f.txpackets + f.txdrop + |ps|
  {
    if ps != [] {
      TransmittedAllCounts(f, ps[..|ps| - 1]);
    }
  }

  // Of a series, the link takes the longest prefix that fits and drops the rest.
  lemma {:induction false} TransmittedAllFits(f: Fifo, ps: seq<Packet>)
    requires |f.queue| <= 1023
    ensures var g, k := TransmittedAll(f, ps), Min(|ps|, 1023 - |f.queue|);
            && g.queue == f.queue + ps[..k] && g.txdrop == f.txdrop + (|ps| - k)
            && g.txpackets == f.txpackets + k && g.rxpackets == f.rxpackets && g.rxbytes == f.rxbytes
  {
    if ps != [] {
      var init := ps[..|ps| - 1];
      TransmittedAllFits(f, init);
      var k := Min(|init|, 1023 - |f.queue|);
      assert init[..k] == ps[..k];
      if k == |init| && k < 1023 - |f.queue| {
        assert ps[..k + 1] == ps[..k] + [ps[k]];
      }
    }
  }

  // ---- Whole runs ----

  datatype LinkEvent = Transmit(p: Packet) | Receive

  // What a run over a fresh link leaves: the link, the packets it accepted, the
  // packets it gave out, and the packets it dropped.
  datatype History = History(f: Fifo, accepted: seq<Packet>, given: seq<Packet>, dropped: seq<Packet>)

  // Receiving from an empty link is the underflow panic, after which nothing runs.
  function Step(h: History, e: LinkEvent): Option<History> {
    match e
    case Transmit(p) =>
      if |h.f.queue| == 1023 then Some(h.(f := Transmitted(h.f, p), dropped := h.dropped + [p]))
      else Some(h.(f := Transmitted(h.f, p), accepted := h.accepted + [p]))
    case Receive =>
      if h.f.queue == [] then None
      else Some(h.(f := Received(h.f), given := h.given + [h.f.queue[0]]))
  }

  function Run(es: seq<LinkEvent>): Option<History> {
    if es == [] then Some(History(EMPTY, [], [], []))
    else match Run(es[..|es| - 1])
         case None => None
         case Some(h) => Step(h, es[|es| - 1])
  }

  // Packets come out in the order accepted, none lost or invented, and the
  // counters account for every packet and byte.
  ghost predicate Accounts(h: History) {
    && |h.f.queue| <= 1023
    && h.accepted == h.given + h.f.queue
    && h.f.txpackets == |h.accepted| && h.f.rxpackets == |h.given| && h.f.txdrop == |h.dropped|
    && h.f.txbytes == TotalBytes(h.accepted) && h.f.rxbytes == TotalBytes(h.given)
  }

  lemma {:induction false} StepAccounts(h: History, e: LinkEvent)
    requires Accounts(h) && Step(h, e).Some?
    ensures Accounts(Step(h, e).value)
  {
    hide TotalBytes;
    match e {
      case Transmit(p) =>
        TotalBytesPush(h.accepted, p);
        assert h.given + h.f.queue + [p] == h.given + (h.f.queue + [p]);
      case Receive =>
        TotalBytesPush(h.given, h.f.queue[0]);
        assert h.given + h.f.queue == h.given + [h.f.queue[0]] + h.f.queue[1..];
    }
  }

  lemma TotalBytesPush(ps: seq<Packet>, p: Packet)
    ensures TotalBytes(ps + [p]) == TotalBytes(ps) + p.length
  {
    assert (ps + [p])[..|ps|] == ps;
  }

  lemma {:induction false} RunAccounts(es: seq<LinkEvent>)
    requires Run(es).Some?
    ensures Accounts(Run(es).value)
  {
    if es != [] {
      RunAccounts(es[..|es| - 1]);
      StepAccounts(Run(es[..|es| - 1]).value, es[|es| - 1]);
    } else {
      assert EMPTY.queue == [];
    }
  }

  lemma {:induction false} TotalBytesAppend(ps: seq<Packet>, qs: seq<Packet>)
    ensures TotalBytes(ps + qs) == TotalBytes(ps) + TotalBytes(qs)
  {
    if qs == [] {
      assert ps + qs == ps;
    } else {
      var last := |qs| - 1;
      assert (ps + qs)[..|ps + qs| - 1] == ps + qs[..last];
      TotalBytesAppend(ps, qs[..last]);
    }
  }

  // The statistics of a link tell what is queued on it.
  lemma CountersTellQueue(es: seq<LinkEvent>)
    requires Run(es).Some?
    ensures var f := Run(es).value.f;
            && f.txpackets - f.rxpackets == |f.queue| <= 1023
            && f.txbytes - f.rxbytes == TotalBytes(f.queue)
  {
    RunAccounts(es);
    var h := Run(es).value;
    TotalBytesAppend(h.given, h.f.queue);
  }

  // ---- The ring ----

  // Moving a cursor: the mask wraps 1024 to 0.
  lemma MaskWraps(index: nat)
    requires index < 1024
    ensures BitAnd(index + 1, 1024 - 1) == (if index == 1023 then 0 else index + 1)
    ensures BitAnd(index + 1, 1024 - 1) == (index + 1) % 1024
  {
    assert Pow2(5) == 32;
    assert Pow2(10) == 32 * Pow2(5) by {
      assert Pow2(8) == 8 * Pow2(5);
    }
    if index == 1023 {
      PowerIsIsolated(10);
    } else {
      MaskKeeps(index + 1, 10);
    }
  }

  // The slots from `read` up to `write`, around the end of the ring.
  function Window(slots: seq<Packet>, read: nat, write: nat): (q: seq<Packet>)
    requires |slots| == 1024 && read < 1024 && write < 1024
    ensures |q| == if read <= write then write - read else 1024 - read + write
  {
    if read <= write then slots[read..write] else slots[read..] + slots[..write]
  }

  // Moving the read cursor takes the oldest packet off.
  lemma WindowTaken(slots: seq<Packet>, read: nat, write: nat)
    requires |slots| == 1024 && read < 1024 && write < 1024 && read != write
    ensures var q := Window(slots, read, write);
            q[0] == slots[read] && Window(slots, if read == 1023 then 0 else read + 1, write) == q[1..]
  {
    if read < write {
      assert slots[read..write][1..] == slots[read + 1..write];
    } else if read < 1023 {
      assert slots[read..][1..] == slots[read + 1..];
      assert (slots[read..] + slots[..write])[1..] == slots[read + 1..] + slots[..write];
    } else {
      assert (slots[1023..] + slots[..write])[1..] == slots[..write];
    }
  }

  // Writing the slot at the write cursor and moving it puts a packet at the end.
  lemma WindowPut(slots: seq<Packet>, read: nat, write: nat, p: Packet)
    requires |slots| == 1024 && read < 1024 && write < 1024 && |Window(slots, read, write)| < 1023
    ensures Window(slots[write := p], read, if write == 1023 then 0 else write + 1)
         == Window(slots, read, write) + [p]
  {
    var put := slots[write := p];
    assert put[..write] == slots[..write];
    if write == 1023 {
      assert put[read..1023] == slots[read..1023];
      assert put[read..] == slots[read..1023] + [p];
    } else if read <= write {
      assert put[read..write + 1] == slots[read..write] + [p];
    } else {
      assert put[..write + 1] == slots[..write] + [p];
      assert put[read..] == slots[read..];
      assert slots[read..] + (slots[..write] + [p]) == slots[read..] + slots[..write] + [p];
    }
  }

  class Link {
    const packets: array<Packet>
    var read: nat
    var write: nat
    var txpackets: nat
    var txbytes: nat
    var txdrop: nat
    var rxpackets: nat
    var rxbytes: nat

    ghost predicate Valid()
      reads this
    {
      packets.Length == 1024 && read < 1024 && write < 1024
    }

    ghost function Queue(): (q: seq<Packet>)
      requires Valid()
      reads this, packets
      ensures |q| <= 1023
    {
      Window(packets[..], read, write)
    }

    ghost function Abs(): Fifo
      requires Valid()
      reads this, packets
    {
      Fifo(Queue(), txpackets, txbytes, txdrop, rxpackets, rxbytes)
    }

    constructor ()
      ensures Valid() && fresh(packets) && Abs() == EMPTY
    {
      packets := new Packet[1024](_ => Packet(0, 0, seq(10240, _ => 0)));
      read, write := 0, 0;
      txpackets, txbytes, txdrop, rxpackets, rxbytes := 0, 0, 0, 0, 0;
    }

    method Empty() returns (r: bool)
      requires Valid()
      ensures r <==> Queue() == []
    {
      hide Window;
      r := read == write;
    }

    // One slot stays unused, so the ring is full at 1023 packets.
    method Full() returns (r: bool)
      requires Valid()
      ensures r <==> |Queue()| == 1023
    {
      hide Window, BitAnd;
      MaskWraps(write);
      r := BitAnd(write + 1, 1024 - 1) == read;
    }

    // None is the underflow panic.
    method Receive() returns (r: Option<Packet>)
      requires Valid()
      modifies this
      ensures Valid()
      ensures r.None? <==> old(Queue()) == []
      ensures r.None? ==> Abs() == old(Abs())
      ensures r.Some? ==> r.value == old(Queue())[0] && Abs() == Received(old(Abs()))
    {
      hide Window, BitAnd;
      var empty := Empty();
      if empty {
        return None;
      }
      var p := packets[read];
      WindowTaken(packets[..], read, write);
      MaskWraps(read);
      read := BitAnd(read + 1, 1024 - 1);
      rxpackets := rxpackets + 1;
      rxbytes := rxbytes + p.length;
      r := Some(p);
    }

    // A packet that finds the link full is counted and freed.
    method Transmit(fl: Freelist, p: Packet)
      requires Valid() && fl.Valid() && p.addr in fl.Live() && fl.list != packets
      modifies this, packets, fl, fl.list
      ensures Valid() && fl.Valid() && Abs() == Transmitted(old(Abs()), p)
      ensures fl.Abs() == if |old(Queue())| == 1023 then Freed(old(fl.Abs()), p) else old(fl.Abs())
      ensures fl.Live() == if |old(Queue())| == 1023 then old(fl.Live()) - {p.addr} else old(fl.Live())
    {
      hide Window, Freelist.Valid, Freelist.Live, Freed, BitAnd;
      var full := Full();
      if full {
        txdrop := txdrop + 1;
        fl.Free(p);
      } else {
        Enqueue(p);
      }
    }

    method Enqueue(p: Packet)
      requires Valid() && |Queue()| < 1023
      modifies this, packets
      ensures Valid() && Abs() == Transmitted(old(Abs()), p)
    {
      hide Window, BitAnd;
      ghost var slots := packets[..];
      WindowPut(slots, read, write, p);
      MaskWraps(write);
      txpackets := txpackets + 1;
      txbytes := txbytes + p.length;
      packets[write] := p;
      assert packets[..] == slots[write := p];
      write := BitAnd(write + 1, 1024 - 1);
    }

    // Dropping a link frees what is still queued, oldest first, each once.
    method Drop(fl: Freelist)
      requires Valid() && fl.Valid() && fl.list != packets
      requires Distinct(Queue()) && Addrs(Queue()) <= fl.Live()
      modifies this, fl, fl.list
      ensures Valid() && fl.Valid() && Queue() == []
      ensures Abs() == ReceivedAll(old(Abs()), |old(Queue())|)
      ensures fl.Abs() == FreedAll(old(fl.Abs()), old(Queue()))
      ensures fl.Live() == old(fl.Live()) - Addrs(old(Queue()))
    {
      hide Queue, FreedAll, Freed, Freelist.Valid, Freelist.Live, Distinct, Addrs, Received, ReceivedAll, FreedPart;
      ghost var f, pool, live := Abs(), fl.Abs(), fl.Live();
      ghost var done := 0;
      FreedNone(f.queue, pool, live);
      NoneReceived(f);
      while true
        invariant Valid() && fl.Valid() && 0 <= done <= |f.queue| && Abs() == ReceivedAll(f, done)
        invariant FreedPart(f.queue, done, pool, live, fl.Abs(), fl.Live())
        decreases |f.queue| - done
      {
        var empty := Empty();
        if empty {
          break;
        }
        OneReceived(f, done);
        FreedNext(f.queue, done, pool, live, fl.Abs(), fl.Live());
        FreeNext(fl);
        done := done + 1;
      }
      FreedSoFar(f.queue, done, pool, live, fl.Abs(), fl.Live());
    }

    method FreeNext(fl: Freelist)
      requires Valid() && fl.Valid() && fl.list != packets
      requires Queue() != [] && Queue()[0].addr in fl.Live()
      modifies this, fl, fl.list
      ensures Valid() && fl.Valid() && Abs() == Received(old(Abs()))
      ensures fl.Abs() == Freed(old(fl.Abs()), old(Queue())[0])
      ensures fl.Live() == old(fl.Live()) - {old(Queue())[0].addr}
    {
      var p := Receive();
      fl.Free(p.value);
    }
  }

  lemma NoneReceived(f: Fifo)
    ensures ReceivedAll(f, 0) == f
  {
  }

  lemma OneReceived(f: Fifo, n: nat)
    requires n < |f.queue|
    ensures ReceivedAll(f, n + 1) == Received(ReceivedAll(f, n)) && ReceivedAll(f, n).queue[0] == f.queue[n]
  {
  }
}
