// The methods on the freelist, links and rings take the steps of the world: where
// a world describes the objects before a call, a world one or two steps on
// describes them after it.
module OwnershipSteps {
  import opened Words
  import opened Bits
  import opened Packets
  import opened Links
  import opened Ownership
  import opened Rings
  import R = RxRing
  import T = TxRing

  // The world knows the freelist as it is.
  ghost predicate Agrees(w: World, fl: Freelist)
    reads fl, fl.list
  {
    fl.Valid() && w.pool == fl.Abs() && w.made == fl.Universe(fl.packetsAllocated)
  }

  // What is at a place other than the freelist is out.
  lemma PlaceLive(w: World, fl: Freelist, place: Place)
    requires Agrees(w, fl) && WorldInv(w) && place != Free
    ensures Owner(w, place) <= fl.Live()
  {
    PlacesApart(w, Free, place);
  }

  lemma HeldLive(w: World, fl: Freelist)
    requires Agrees(w, fl) && WorldInv(w)
    ensures w.held.Keys <= fl.Live()
  {
    hide Freelist.Live, WorldInv;
    PlaceLive(w, fl, Held);
  }

  // ---- Allocating ----

  ghost predicate Popped(w: World, p: Packet, z: World) {
    Next(w, Pop, z) && z.held == w.held[p.addr := p]
  }

  // `allocate`: a pop, behind a refill when the freelist is empty.
  method AllocateStep(fl: Freelist, ghost w: World) returns (r: Option<Packet>, ghost y: World, ghost z: World)
    requires Agrees(w, fl) && WorldInv(w)
    modifies fl, fl.list
    ensures WorldInv(z)
    ensures r.None? ==> z == w && Agrees(z, fl) && |fl.Live()| == 511_000
    ensures r.Some? ==> Agrees(z, fl) && Popped(y, r.value, z) && r.value.addr !in w.held
    ensures r.Some? ==> y == w || exists supply :: Next(w, Refill(supply), y)
    ensures z == w.(pool := z.pool, made := z.made, held := z.held)
    ensures r.Some? ==> z.held == w.held[r.value.addr := r.value]
  {
    hide WorldInv, Next, Popped, Freelist.Valid, Freelist.Live, Freelist.Universe;
    NoneFree(fl);
    ghost var free := fl.Available();
    r := fl.Allocate();
    y, z := w, w;
    if r.Some? {
      if |free| > 0 {
        assert free == fl.Available() + [r.value];
        PopWorld(w, fl, r.value);
      } else {
        RefillWorld(w, fl, r.value);
        y := RefillOf(w, fl.Available() + [r.value]);
      }
      z := PopOf(y, r.value, fl.Available());
    }
  }

  ghost function PopOf(w: World, p: Packet, free: seq<Packet>): World {
    w.(pool := w.pool.(free := free), held := w.held[p.addr := p])
  }

  ghost function RefillOf(w: World, supply: seq<Packet>): World {
    w.(pool := w.pool.(free := supply, made := w.pool.made + w.pool.step, step := 2 * w.pool.step),
       made := w.made + Addrs(supply))
  }

  // What `pop` leaves of the freelist.
  lemma PopWorld(w: World, fl: Freelist, p: Packet)
    requires WorldInv(w) && fl.Valid() && w.made == fl.Universe(fl.packetsAllocated)
    requires w.pool == fl.Abs().(free := fl.Available() + [p])
    ensures var z := PopOf(w, p, fl.Available());
            Popped(w, p, z) && WorldInv(z) && Agrees(z, fl) && p.addr !in w.held
  {
    hide WorldInv, Freelist.Valid, Freelist.Universe, Freelist.Available;
    var free := fl.Available();
    assert w.pool.free[..|w.pool.free| - 1] == free;
    PopKeeps(w, PopOf(w, p, free));
    FreeNotHeld(w, free, p);
  }

  lemma FreeNotHeld(w: World, free: seq<Packet>, p: Packet)
    requires WorldInv(w) && w.pool.free == free + [p]
    ensures p.addr !in w.held
  {
    PlacesApart(w, Free, Held);
    AddrsPush(free, p);
    assert p.addr in Owner(w, Free);
  }

  // What a refill and a pop leave of it.
  lemma RefillWorld(w: World, fl: Freelist, p: Packet)
    requires WorldInv(w) && fl.Valid() && w.pool.free == [] && w.made == fl.Universe(w.pool.made)
    requires fl.packetsAllocated == w.pool.made + w.pool.step <= MAX_PACKETS
    requires fl.packetAllocationStep == 2 * w.pool.step && fl.stats == w.pool.stats
    requires fl.nfree == w.pool.step - 1 && fl.Live() == w.made + {p.addr} && p.addr !in w.made && p.length == 0
    ensures var supply := fl.Available() + [p];
            var y := RefillOf(w, supply);
            var z := PopOf(y, p, fl.Available());
            && Next(w, Refill(supply), y)
            && Popped(y, p, z) && WorldInv(z) && Agrees(z, fl) && p.addr !in w.held
  {
    hide WorldInv, Freelist.Valid, Freelist.Universe, Freelist.Live, Popped;
    var supply := fl.Available() + [p];
    SupplyUnseen(fl, w.pool.made, w.made, p);
    RefillKeeps(w, supply, RefillOf(w, supply));
    PopWorld(RefillOf(w, supply), fl, p);
  }

  lemma NoneFree(fl: Freelist)
    requires fl.Valid()
    ensures fl.nfree == 0 ==> fl.Live() == fl.Universe(fl.packetsAllocated) && fl.Available() == []
  {
  }

  // What a refill makes was never seen before.
  lemma SupplyUnseen(fl: Freelist, made: nat, live: set<nat>, p: Packet)
    requires fl.Valid() && made <= fl.packetsAllocated && live == fl.Universe(made)
    requires fl.Live() == live + {p.addr} && p.addr !in live && p.length == 0
    ensures var supply := fl.Available() + [p];
            && Distinct(supply) && (forall i :: 0 <= i < |supply| ==> supply[i].length == 0)
            && Addrs(supply) !! live && fl.Universe(fl.packetsAllocated) == live + Addrs(supply)
  {
    var free := fl.Available();
    assert p.addr in fl.Live();
    DistinctPush(free, p);
    assert fl.Universe(made) <= fl.Universe(fl.packetsAllocated);
  }

  // ---- Boxes in scope ----

  // `free` of a packet in scope.
  method FreeStep(p: Packet, fl: Freelist, ghost w: World) returns (ghost z: World)
    requires Agrees(w, fl) && WorldInv(w) && p.addr in w.held && w.held[p.addr] == p
    modifies fl, fl.list
    ensures Next(w, FreeHeld(p.addr), z) && WorldInv(z) && Agrees(z, fl)
  {
    hide Freelist.Valid, Freelist.Live, Freed, Freelist.Universe, Freelist.Available, WorldInv;
    HeldLive(w, fl);
    fl.Free(p);
    z := w.(pool := Freed(w.pool, p), held := w.held - {p.addr});
    FreeHeldKeeps(w, p.addr, z);
    FreedSame(w.pool, p);
  }

  lemma FreedSame(pool: Pool, p: Packet)
    ensures Freed(pool, p).made == pool.made && Freed(pool, p).step == pool.step
  {
  }

  // Writing to a packet in scope.
  method WriteStep(p: Packet, length: u16, data: Payload, ghost w: World) returns (r: Packet, ghost z: World)
    requires WorldInv(w) && p.addr in w.held && w.held[p.addr] == p
    ensures Next(w, Event.Write(p.addr, length, data), z) && WorldInv(z)
    ensures r.addr == p.addr && r.addr in z.held && z.held[r.addr] == r
  {
    hide WorldInv;
    r := p.(length := length, data := data);
    z := w.(held := w.held[p.addr := r]);
    WriteKeeps(w, p.addr, length, data, z);
  }

  // ---- Links ----

  ghost predicate IsLink(w: World, id: nat, link: Link)
    reads link, link.packets
  {
    link.Valid() && id in w.links && w.links[id] == link.Abs()
  }

  method NewLinkStep(id: nat, ghost w: World) returns (link: Link, ghost z: World)
    requires WorldInv(w) && id !in w.links
    ensures Next(w, Event.NewLink(id), z) && WorldInv(z) && IsLink(z, id, link)
    ensures fresh(link) && fresh(link.packets)
  {
    hide WorldInv, Link.Queue;
    link := new Link();
    z := w.(links := w.links[id := EMPTY]);
    NewLinkKeeps(w, id, z);
  }

  method TransmitStep(id: nat, link: Link, p: Packet, fl: Freelist, ghost w: World) returns (ghost z: World)
    requires Agrees(w, fl) && IsLink(w, id, link) && WorldInv(w) && fl.list != link.packets
    requires p.addr in w.held && w.held[p.addr] == p
    modifies link, link.packets, fl, fl.list
    ensures Next(w, Event.Transmit(id, p.addr), z) && WorldInv(z) && Agrees(z, fl) && IsLink(z, id, link)
  {
    hide Freelist.Valid, Freelist.Live, Freed, Freelist.Universe, Freelist.Available, Link.Queue, Transmitted, WorldInv;
    HeldLive(w, fl);
    link.Transmit(fl, p);
    z := w.(links := w.links[id := Transmitted(w.links[id], p)], held := w.held - {p.addr},
            pool := if |w.links[id].queue| == 1023 then Freed(w.pool, p) else w.pool);
    TransmitKeeps(w, id, p.addr, z);
    FreedSame(w.pool, p);
  }

  // The underflow panic, or the oldest packet comes into scope.
  method ReceiveStep(id: nat, link: Link, ghost w: World) returns (r: Option<Packet>, ghost z: World)
    requires IsLink(w, id, link) && WorldInv(w)
    modifies link
    ensures r.None? ==> z == w && link.Valid() && link.Queue() == []
    ensures r.None? <==> old(link.Queue()) == []
    ensures r.Some? ==> Next(w, Event.Receive(id), z) && WorldInv(z) && IsLink(z, id, link)
    ensures r.Some? ==> r.value.addr !in w.held && z.held == w.held[r.value.addr := r.value]
    ensures r.Some? ==> z == w.(links := z.links, held := z.held) && link.Queue() == old(link.Queue())[1..]
  {
    hide Link.Queue, WorldInv;
    r := link.Receive();
    z := w;
    if r.Some? {
      QueueNotHeld(w, id, r.value);
      z := w.(links := w.links[id := Received(w.links[id])], held := w.held[r.value.addr := r.value]);
      ReceiveKeeps(w, id, z);
    }
  }

  lemma QueueNotHeld(w: World, id: nat, p: Packet)
    requires WorldInv(w) && id in w.links && p in w.links[id].queue
    ensures p.addr !in w.held
  {
    PlacesApart(w, OnLink(id), Held);
    assert p.addr in Owner(w, OnLink(id));
  }

  method DropStep(id: nat, link: Link, fl: Freelist, ghost w: World) returns (ghost z: World)
    requires Agrees(w, fl) && IsLink(w, id, link) && WorldInv(w) && fl.list != link.packets
    modifies link, fl, fl.list
    ensures Next(w, DropLink(id), z) && WorldInv(z) && Agrees(z, fl)
  {
    hide Freelist.Valid, Freelist.Live, FreedAll, Freelist.Universe, Freelist.Available, Link.Queue, Distinct, Addrs,
         WorldInv;
    PlaceLive(w, fl, OnLink(id));
    LinkApart(w, id);
    ghost var q := link.Queue();
    link.Drop(fl);
    z := w.(links := w.links - {id}, pool := FreedAll(w.pool, q));
    DropLinkKeeps(w, id, z);
    FreedAllExactly(w.pool, q);
  }

  lemma LinkApart(w: World, id: nat)
    requires WorldInv(w) && id in w.links
    ensures Distinct(w.links[id].queue)
  {
  }

  // ---- Transmit ring ----

  ghost predicate IsTx(w: World, id: nat, q: T.TxQueue)
    reads q, q.descriptors
  {
    q.Valid() && id in w.txs && w.txs[id] == q.Abs()
  }

  // `init_tx` and `start_tx_queue`; false is the error on the ring size.
  method TxStartStep(id: nat, numDescriptors: nat, ghost w: World) returns (q: T.TxQueue, ok: bool, ghost z: World)
    requires WorldInv(w) && id !in w.txs && numDescriptors > 0
    ensures ok <==> IsPowerOfTwo(numDescriptors)
    ensures ok ==> Next(w, TxStart(id, numDescriptors), z) && WorldInv(z) && IsTx(z, id, q)
    ensures fresh(q) && fresh(q.descriptors)
  {
    hide WorldInv, T.TxInv, IsPowerOfTwo;
    q := new T.TxQueue(numDescriptors);
    ok := q.Start();
    z := w.(txs := w.txs[id := T.Started(numDescriptors).s]);
    if ok {
      TxStartKeeps(w, id, numDescriptors, z);
      assert q.Abs() == T.Started(numDescriptors).s;
    }
  }

  method HandStep(id: nat, q: T.TxQueue, p: Packet, ghost w: World) returns (ghost z: World)
    requires IsTx(w, id, q) && WorldInv(w) && T.HasRoom(q.Abs()) && p.addr in w.held && w.held[p.addr] == p
    modifies q`txIndex, q`bufsInUse, q.descriptors
    ensures Next(w, TxPut(id, p.addr), z) && WorldInv(z) && IsTx(z, id, q)
    ensures z == w.(txs := z.txs, held := w.held - {p.addr})
    ensures q.txIndex == WrapRing(old(q.txIndex), q.descriptors.Length)
  {
    hide WorldInv, T.TxInv, WrapRing, T.Handed, Ahead, IsPowerOfTwo;
    q.Hand(p);
    z := w.(txs := w.txs[id := T.Put(w.txs[id], p)], held := w.held - {p.addr});
    TxPutKeeps(w, id, p.addr, z);
  }

  method TellStep(id: nat, q: T.TxQueue, ghost w: World) returns (ghost z: World)
    requires IsTx(w, id, q) && WorldInv(w)
    modifies q`tdt
    ensures Next(w, TxPublish(id), z) && WorldInv(z) && IsTx(z, id, q)
    ensures z == w.(txs := z.txs)
  {
    hide WorldInv, T.TxInv;
    q.Tell();
    z := w.(txs := w.txs[id := T.Publish(w.txs[id])]);
    TxPublishKeeps(w, id, z);
  }

  method CompleteStep(id: nat, q: T.TxQueue, back: T.TxDesc, ghost w: World) returns (ghost z: World)
    requires IsTx(w, id, q) && WorldInv(w) && q.tdh != q.tdt && T.Done(back)
    modifies q`tdh, q`wire, q.descriptors
    ensures Next(w, TxComplete(id, back), z) && WorldInv(z) && IsTx(z, id, q)
    ensures z == w.(txs := z.txs)
    ensures T.Completed(q.Abs()) == old(T.Completed(q.Abs())) + 1 <= |q.bufsInUse|
  {
    hide WorldInv, T.TxInv, T.Complete, T.Done;
    q.CompleteOne(back);
    z := w.(txs := w.txs[id := T.Complete(w.txs[id], back)]);
    TxCompleteKeeps(w, id, back, z);
  }

  method RetireStep(id: nat, q: T.TxQueue, cleanupTo: nat, fl: Freelist, ghost w: World) returns (ghost z: World)
    requires Agrees(w, fl) && IsTx(w, id, q) && WorldInv(w)
    requires T.CanClean(q.Abs()) && cleanupTo == T.CleanupTo(q.Abs())
    modifies q`bufsInUse, q`cleanIndex, fl, fl.list
    ensures Next(w, TxClean(id), z) && WorldInv(z) && Agrees(z, fl) && IsTx(z, id, q)
    ensures z == w.(txs := z.txs, pool := z.pool) && |q.bufsInUse| + 32 == |old(q.bufsInUse)|
  {
    hide Freelist.Valid, Freelist.Live, FreedAll, Freelist.Universe, Freelist.Available, Distinct, Addrs,
         T.TxInv, T.CanClean, T.Cleaned, WorldInv, WrapRing, Ahead, IsPowerOfTwo;
    PlaceLive(w, fl, OnTx(id));
    RingApart(w, id);
    T.CleanKeeps(w.txs[id]);
    ghost var freed := q.bufsInUse[..32];
    q.Retire(fl, cleanupTo);
    z := w.(txs := w.txs[id := T.Cleaned(w.txs[id])], pool := FreedAll(w.pool, freed));
    TxCleanKeeps(w, id, z);
    FreedAllExactly(w.pool, freed);
  }

  lemma RingApart(w: World, id: nat)
    requires WorldInv(w) && id in w.txs
    ensures Distinct(w.txs[id].bufs)
  {
  }

  // ---- Receive ring ----

  // Seen from the index that `rx_batch` has come to.
  ghost predicate IsRx(w: World, id: nat, q: R.RxQueue, index: nat)
    reads q, q.descriptors
  {
    q.ValidAt(index) && id in w.rxs && w.rxs[id] == q.At(index)
  }

  method FillStep(id: nat, q: R.RxQueue, ghost index: nat, back: R.RxDesc, payload: Payload, ghost w: World)
    returns (ghost z: World)
    requires IsRx(w, id, q, index) && WorldInv(w) && q.rdh != q.rdt && R.Filled(back)
    modifies q`bufsInUse, q`rdh, q`arrived, q.descriptors
    ensures Next(w, RxFill(id, back, payload), z) && WorldInv(z) && IsRx(z, id, q, index)
    ensures z == w.(rxs := z.rxs) && R.Room(q.At(index)) == old(R.Room(q.At(index))) - 1
  {
    hide WorldInv, R.RxInv, R.Fill, R.Filled, R.Pending;
    q.FillOne(index, back, payload);
    z := w.(rxs := w.rxs[id := R.Fill(w.rxs[id], back, payload)]);
    RxFillKeeps(w, id, back, payload, z);
  }

  // Taking a frame: the packet comes into scope in exchange for a new one, and
  // goes on to the link.
  method ExchangeStep(id: nat, q: R.RxQueue, index: nat, np: Packet, lid: nat, output: Link, fl: Freelist,
                      ghost w: World)
    returns (ghost p: Packet, next: nat, ghost y: World, ghost z: World)
    requires Agrees(w, fl) && IsRx(w, id, q, index) && IsLink(w, lid, output) && WorldInv(w)
    requires R.Filled(q.descriptors[index]) && R.EndOfPacket(q.descriptors[index])
    requires np.addr in w.held && w.held[np.addr] == np && fl.list != output.packets
    modifies q`bufsInUse, q`taken, q.descriptors, output, output.packets, fl, fl.list
    ensures Next(w, RxTake(id, np.addr), y) && Next(y, Event.Transmit(lid, p.addr), z) && WorldInv(z)
    ensures Agrees(z, fl) && IsRx(z, id, q, next) && IsLink(z, lid, output)
    ensures next == WrapRing(index, q.descriptors.Length) && q.descriptors.Length > 1
    ensures z == w.(pool := z.pool, rxs := z.rxs, links := z.links, held := w.held - {np.addr})
  {
    hide Freelist.Valid, Freelist.Live, Freed, Freelist.Universe, Freelist.Available, Link.Queue, Transmitted, WorldInv,
         R.RxInv, R.Filled, R.EndOfPacket, R.Pending, R.Take, R.Next, R.Carries, Addrs, WrapRing,
         Slot, IsPowerOfTwo;
    RingLive(w, fl, id, index, np);
    p, next := q.Exchange(index, np, output, fl);
    y := w.(rxs := w.rxs[id := R.Take(w.rxs[id], np)], held := (w.held - {np.addr})[p.addr := p]);
    RxTakeKeeps(w, id, np.addr, y);
    z := y.(links := y.links[lid := Transmitted(y.links[lid], p)], held := y.held - {p.addr},
            pool := if |y.links[lid].queue| == 1023 then Freed(y.pool, p) else y.pool);
    TransmitKeeps(y, lid, p.addr, z);
    FreedSame(w.pool, p);
  }

  lemma RingLive(w: World, fl: Freelist, id: nat, index: nat, np: Packet)
    requires Agrees(w, fl) && WorldInv(w) && id in w.rxs && index < |w.rxs[id].bufs| && np.addr in w.held
    ensures w.rxs[id].bufs[index].addr in fl.Live() && np.addr !in Addrs(w.rxs[id].bufs)
    ensures w.rxs[id].bufs[index].addr !in w.held
  {
    hide Freelist.Live, Freelist.Valid;
    PlaceLive(w, fl, OnRx(id));
    PlacesApart(w, OnRx(id), Held);
    assert w.rxs[id].bufs[index].addr in Addrs(w.rxs[id].bufs);
    assert np.addr in Owner(w, Held);
  }

  method ParkStep(id: nat, q: R.RxQueue, last: nat, index: nat, ghost w: World) returns (ghost z: World)
    requires IsRx(w, id, q, index) && WorldInv(w) && last < q.descriptors.Length
    requires index == WrapRing(last, q.descriptors.Length)
    modifies q`rdt, q`rxIndex
    ensures Next(w, RxPublish(id), z) && WorldInv(z) && IsRx(z, id, q, index) && q.Valid()
    ensures z == w.(rxs := z.rxs) && q.rxIndex == index
  {
    hide WorldInv, R.RxInv, R.Pending, R.Publish;
    q.Park(last, index);
    z := w.(rxs := w.rxs[id := R.Publish(w.rxs[id])]);
    RxPublishKeeps(w, id, z);
  }
}
