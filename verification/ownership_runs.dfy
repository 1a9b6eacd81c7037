// Starting a queue, `rx_batch` and `tx_batch` as series of steps of the world:
// the driver's loops over the steps of `OwnershipSteps`, each series leading from
// the world that described the objects before to one that describes them after.
module OwnershipRuns {
  import opened Bits
  import opened Packets
  import opened Links
  import opened Ownership
  import O = Ownership
  import opened OwnershipSteps
  import opened Rings
  import R = RxRing
  import T = TxRing

  // Worlds one step apart each.
  ghost predicate Path(ws: seq<World>, es: seq<Event>) {
    |ws| == |es| + 1 && forall i :: 0 <= i < |es| ==> Next(ws[i], es[i], ws[i + 1])
  }

  // A series of steps from one world to another.
  ghost predicate Leads(w: World, es: seq<Event>, z: World) {
    exists ws :: Path(ws, es) && ws[0] == w && ws[|es|] == z
  }

  lemma LeadsMore(w: World, es: seq<Event>, y: World, e: Event, z: World)
    requires Leads(w, es, y) && Next(y, e, z)
    ensures Leads(w, es + [e], z)
  {
    hide Next;
    var ws :| Path(ws, es) && ws[0] == w && ws[|es|] == y;
    assert Path(ws + [z], es + [e]);
  }

  lemma LeadsOn(w: World, es: seq<Event>, y: World, fs: seq<Event>, z: World)
    requires Leads(w, es, y) && Leads(y, fs, z)
    ensures Leads(w, es + fs, z)
  {
    hide Next;
    var ws :| Path(ws, es) && ws[0] == w && ws[|es|] == y;
    var vs :| Path(vs, fs) && vs[0] == y && vs[|fs|] == z;
    PathOn(ws, es, vs, fs);
  }

  lemma PathOn(ws: seq<World>, es: seq<Event>, vs: seq<World>, fs: seq<Event>)
    requires Path(ws, es) && Path(vs, fs) && ws[|es|] == vs[0]
    ensures Path(ws + vs[1..], es + fs)
  {
    hide Next;
    var us, gs := ws + vs[1..], es + fs;
    forall i | 0 <= i < |gs|
      ensures Next(us[i], gs[i], us[i + 1])
    {
      if i < |es| {
        assert Next(ws[i], es[i], ws[i + 1]);
      } else {
        var k := i - |es|;
        assert us[i] == vs[k] && us[i + 1] == vs[k + 1] && gs[i] == fs[k];
      }
    }
  }

  // A series of steps from where a whole run is continues that run.
  lemma RunGoesOn(ws: seq<World>, es: seq<Event>, fs: seq<Event>, z: World)
    requires O.Run(ws, es) && Leads(ws[|es|], fs, z)
    ensures exists us :: O.Run(us, es + fs) && ws <= us && us[|es + fs|] == z
  {
    hide Next;
    var vs :| Path(vs, fs) && vs[0] == ws[|es|] && vs[|fs|] == z;
    assert Path(ws, es);
    PathOn(ws, es, vs, fs);
    assert O.Run(ws + vs[1..], es + fs);
  }

  lemma {:induction false} PathKeeps(ws: seq<World>, es: seq<Event>, n: nat)
    requires Path(ws, es) && WorldInv(ws[0]) && n < |ws|
    ensures WorldInv(ws[n])
  {
    hide WorldInv, Next;
    if n > 0 {
      PathKeeps(ws, es, n - 1);
      assert Next(ws[n - 1], es[n - 1], ws[n - 1 + 1]);
      NextKeeps(ws[n - 1], ws[n], es[n - 1]);
    }
  }

  lemma LeadsNone(w: World)
    ensures Leads(w, [], w)
  {
    assert Path([w], []);
  }

  lemma LeadsAllocated(w: World, es: seq<Event>, x: World, y: World, p: Packet, z: World) returns (fs: seq<Event>)
    requires Leads(w, es, x) && Popped(y, p, z)
    requires y == x || exists supply :: Next(x, Refill(supply), y)
    ensures Leads(w, fs, z)
  {
    hide Leads, Next;
    fs := es;
    if y != x {
      var supply :| Next(x, Refill(supply), y);
      LeadsMore(w, es, x, Refill(supply), y);
      fs := es + [Refill(supply)];
    }
    LeadsMore(w, fs, y, Pop, z);
    fs := fs + [Pop];
  }

  lemma BoxGone<T>(held: map<nat, T>, addr: nat, p: T)
    requires addr !in held
    ensures held[addr := p] - {addr} == held
  {
  }

  // ---- tx_batch ----

  method TxDeviceRun(id: nat, q: T.TxQueue, ghost w: World) returns (ghost es: seq<Event>, ghost z: World)
    requires IsTx(w, id, q) && WorldInv(w)
    modifies q`tdh, q`wire, q.descriptors
    ensures Leads(w, es, z) && WorldInv(z) && IsTx(z, id, q) && z == w.(txs := z.txs)
  {
    hide Leads, Next, WorldInv, T.TxInv, T.Done, Ahead, IsPowerOfTwo;
    LeadsNone(w);
    es, z := [], w;
    while q.tdh != q.tdt
      invariant Leads(w, es, z) && WorldInv(z) && IsTx(z, id, q) && z == w.(txs := z.txs)
      decreases |q.bufsInUse| - T.Completed(q.Abs())
    {
      if * {
        break;
      }
      var back: T.TxDesc := *;
      if T.Done(back) {
        ghost var y := z;
        z := CompleteStep(id, q, back, y);
        LeadsMore(w, es, y, TxComplete(id, back), z);
        es := es + [TxComplete(id, back)];
      } else {
        break;
      }
    }
  }

  method CleanOnceRun(id: nat, q: T.TxQueue, fl: Freelist, ghost w: World)
    returns (cleaned: bool, ghost es: seq<Event>, ghost z: World)
    requires Agrees(w, fl) && IsTx(w, id, q) && WorldInv(w)
    modifies q`bufsInUse, q`cleanIndex, q`tdh, q`wire, q.descriptors, fl, fl.list
    ensures Leads(w, es, z) && WorldInv(z) && Agrees(z, fl) && IsTx(z, id, q)
    ensures z == w.(txs := z.txs, pool := z.pool)
    ensures cleaned ==> |q.bufsInUse| < |old(q.bufsInUse)|
  {
    hide Leads, Next, WorldInv, T.TxInv, T.Done, T.CanClean, T.Completed, Ahead, IsPowerOfTwo, Freelist.Valid,
         Freelist.Universe;
    LeadsNone(w);
    var cleanable := q.txIndex - q.cleanIndex;
    if cleanable < 0 {
      cleanable := cleanable + q.descriptors.Length;
    }
    T.OutstandingCount(q.Abs());
    if cleanable < 32 {
      return false, [], w;
    }
    var cleanupTo := q.cleanIndex + 32 - 1;
    if cleanupTo >= q.descriptors.Length {
      cleanupTo := cleanupTo - q.descriptors.Length;
    }
    es, z := TxDeviceRun(id, q, w);
    var status := q.descriptors[cleanupTo];
    if !T.Done(status) {
      return false, es, z;
    }
    T.BatchReady(q.Abs());
    ghost var y := z;
    z := RetireStep(id, q, cleanupTo, fl, y);
    LeadsMore(w, es, y, TxClean(id), z);
    es := es + [TxClean(id)];
    cleaned := true;
  }

  method CleanRun(id: nat, q: T.TxQueue, fl: Freelist, ghost w: World)
    returns (clean: nat, ghost es: seq<Event>, ghost z: World)
    requires Agrees(w, fl) && IsTx(w, id, q) && WorldInv(w)
    modifies q`bufsInUse, q`cleanIndex, q`tdh, q`wire, q.descriptors, fl, fl.list
    ensures Leads(w, es, z) && WorldInv(z) && Agrees(z, fl) && IsTx(z, id, q) && clean == q.cleanIndex
    ensures z == w.(txs := z.txs, pool := z.pool)
  {
    hide Leads, Next, WorldInv, Agrees, IsTx;
    LeadsNone(w);
    es, z := [], w;
    while true
      invariant Leads(w, es, z) && WorldInv(z) && Agrees(z, fl) && IsTx(z, id, q)
      invariant z == w.(txs := z.txs, pool := z.pool)
      decreases |q.bufsInUse|
    {
      ghost var y := z;
      var cleaned;
      ghost var fs;
      cleaned, fs, z := CleanOnceRun(id, q, fl, y);
      LeadsOn(w, es, y, fs, z);
      es := es + fs;
      if !cleaned {
        break;
      }
    }
    clean := q.cleanIndex;
  }

  // One packet from the link to the ring, after whatever the device did.
  method SendOneRun(id: nat, q: T.TxQueue, lid: nat, input: Link, ghost w: World)
    returns (ghost es: seq<Event>, ghost z: World)
    requires IsTx(w, id, q) && IsLink(w, lid, input) && WorldInv(w)
    requires input.Queue() != [] && T.HasRoom(q.Abs())
    modifies q`txIndex, q`bufsInUse, q`tdh, q`wire, q.descriptors, input
    ensures Leads(w, es, z) && WorldInv(z) && IsTx(z, id, q) && IsLink(z, lid, input)
    ensures z == w.(txs := z.txs, links := z.links)
    ensures input.Queue() == old(input.Queue())[1..]
    ensures q.txIndex == WrapRing(old(q.txIndex), q.descriptors.Length)
  {
    hide Leads, Next, WorldInv, T.TxInv, Link.Queue, WrapRing, Ahead, IsPowerOfTwo;
    es, z := TxDeviceRun(id, q, w);
    ghost var x := z;
    var p;
    p, z := ReceiveStep(lid, input, x);
    LeadsMore(w, es, x, Event.Receive(lid), z);
    BoxGone(x.held, p.value.addr, p.value);
    ghost var y := z;
    z := HandStep(id, q, p.value, y);
    LeadsMore(w, es + [Event.Receive(lid)], y, TxPut(id, p.value.addr), z);
    es := es + [Event.Receive(lid)] + [TxPut(id, p.value.addr)];
  }

  method SendRun(id: nat, q: T.TxQueue, lid: nat, input: Link, txFrom: nat, clean: nat, ghost w: World)
    returns (ghost es: seq<Event>, ghost z: World)
    requires IsTx(w, id, q) && IsLink(w, lid, input) && WorldInv(w) && txFrom == q.txIndex && clean == q.cleanIndex
    modifies q`txIndex, q`bufsInUse, q`tdh, q`wire, q.descriptors, input
    ensures Leads(w, es, z) && WorldInv(z) && IsTx(z, id, q) && IsLink(z, lid, input)
    ensures z == w.(txs := z.txs, links := z.links)
  {
    hide Leads, Next, WorldInv, T.TxInv, Link.Queue, WrapRing, Ahead, IsPowerOfTwo;
    LeadsNone(w);
    es, z := [], w;
    var curIndex := txFrom;
    while true
      invariant Leads(w, es, z) && WorldInv(z) && IsTx(z, id, q) && IsLink(z, lid, input)
      invariant z == w.(txs := z.txs, links := z.links) && curIndex == q.txIndex
      decreases |input.Queue()|
    {
      var empty := input.Empty();
      if empty {
        break;
      }
      var nextIndex := WrapRing(curIndex, q.descriptors.Length);
      if clean == nextIndex {
        break;
      }
      ghost var y, fs := z, [];
      fs, z := SendOneRun(id, q, lid, input, y);
      LeadsOn(w, es, y, fs, z);
      es := es + fs;
      curIndex := nextIndex;
    }
  }

  method TxBatchRun(id: nat, q: T.TxQueue, lid: nat, input: Link, fl: Freelist, ghost w: World)
    returns (ghost es: seq<Event>, ghost z: World)
    requires Agrees(w, fl) && IsTx(w, id, q) && IsLink(w, lid, input) && WorldInv(w) && fl.list != input.packets
    modifies q, q.descriptors, input, fl, fl.list
    ensures Leads(w, es, z) && WorldInv(z) && Agrees(z, fl) && IsTx(z, id, q) && IsLink(z, lid, input)
    ensures z == w.(txs := z.txs, links := z.links, pool := z.pool)
  {
    hide Leads, Next, WorldInv, IsTx, Link.Queue, Freelist.Valid, Freelist.Universe;
    var curIndex := q.txIndex;
    var clean;
    clean, es, z := CleanRun(id, q, fl, w);
    ghost var y, fs := z, [];
    fs, z := SendRun(id, q, lid, input, curIndex, clean, y);
    LeadsOn(w, es, y, fs, z);
    es := es + fs;
    y := z;
    z := TellStep(id, q, y);
    LeadsMore(w, es, y, TxPublish(id), z);
    es := es + [TxPublish(id)];
  }

  // ---- rx_batch ----

  method RxDeviceRun(id: nat, q: R.RxQueue, ghost index: nat, ghost w: World)
    returns (ghost es: seq<Event>, ghost z: World)
    requires IsRx(w, id, q, index) && WorldInv(w)
    modifies q`bufsInUse, q`rdh, q`arrived, q.descriptors
    ensures Leads(w, es, z) && WorldInv(z) && IsRx(z, id, q, index) && z == w.(rxs := z.rxs)
  {
    hide Leads, Next, WorldInv, R.RxQueue.ValidAt, R.Filled, Ahead, IsPowerOfTwo;
    LeadsNone(w);
    es, z := [], w;
    while q.rdh != q.rdt
      invariant Leads(w, es, z) && WorldInv(z) && IsRx(z, id, q, index) && z == w.(rxs := z.rxs)
      decreases R.Room(q.At(index))
    {
      if * {
        break;
      }
      var back: R.RxDesc := *;
      var payload: Payload := *;
      if R.Filled(back) {
        ghost var y := z;
        z := FillStep(id, q, index, back, payload, y);
        LeadsMore(w, es, y, RxFill(id, back, payload), z);
        es := es + [RxFill(id, back, payload)];
      } else {
        break;
      }
    }
  }

  // The next index is one slot on.
  ghost predicate Behind(q: R.RxQueue, lastIndex: nat, index: nat) {
    1 < q.descriptors.Length && lastIndex < q.descriptors.Length && index == WrapRing(lastIndex, q.descriptors.Length)
  }

  // The exchange of a frame for a new packet; false is the allocation panic.
  method ExchangeRun(id: nat, q: R.RxQueue, index: nat, lid: nat, output: Link, fl: Freelist, ghost w: World)
    returns (ok: bool, next: nat, ghost es: seq<Event>, ghost z: World)
    requires Agrees(w, fl) && IsRx(w, id, q, index) && IsLink(w, lid, output) && WorldInv(w)
    requires R.Filled(q.descriptors[index]) && R.EndOfPacket(q.descriptors[index]) && fl.list != output.packets
    modifies q`bufsInUse, q`taken, q.descriptors, output, output.packets, fl, fl.list
    ensures Leads(w, es, z) && WorldInv(z) && Agrees(z, fl) && IsRx(z, id, q, next) && IsLink(z, lid, output)
    ensures z == w.(pool := z.pool, made := z.made, rxs := z.rxs, links := z.links)
    ensures if ok then next == WrapRing(index, q.descriptors.Length) && q.descriptors.Length > 1 else next == index
  {
    hide Leads, Next, WorldInv, Popped, R.RxQueue.ValidAt, R.Filled, R.EndOfPacket, Link.Queue, WrapRing,
         Freelist.Valid, Freelist.Universe, Freelist.Live;
    LeadsNone(w);
    var np;
    ghost var x, y, p;
    np, x, z := AllocateStep(fl, w);
    if np.None? {
      return false, index, [], z;
    }
    es := LeadsAllocated(w, [], w, x, np.value, z);
    BoxGone(w.held, np.value.addr, np.value);
    x := z;
    p, next, y, z := ExchangeStep(id, q, index, np.value, lid, output, fl, x);
    LeadsMore(w, es, x, RxTake(id, np.value.addr), y);
    LeadsMore(w, es + [RxTake(id, np.value.addr)], y, Event.Transmit(lid, p.addr), z);
    es := es + [RxTake(id, np.value.addr)] + [Event.Transmit(lid, p.addr)];
    ok := true;
  }

  // One round of the receive loop.
  method TakeOneRun(id: nat, q: R.RxQueue, index: nat, lid: nat, output: Link, fl: Freelist, ghost w: World)
    returns (r: Option<R.Outcome>, next: nat, ghost es: seq<Event>, ghost z: World)
    requires Agrees(w, fl) && IsRx(w, id, q, index) && IsLink(w, lid, output) && WorldInv(w)
    requires fl.list != output.packets
    modifies q`bufsInUse, q`rdh, q`arrived, q`taken, q.descriptors, output, output.packets, fl, fl.list
    ensures Leads(w, es, z) && WorldInv(z) && Agrees(z, fl) && IsRx(z, id, q, next) && IsLink(z, lid, output)
    ensures z == w.(pool := z.pool, made := z.made, rxs := z.rxs, links := z.links)
    ensures r == Some(R.Batch(1)) ==> Behind(q, index, next)
    ensures r != Some(R.Batch(1)) ==> next == index && (r.None? || !r.value.Batch?)
  {
    hide Leads, Next, WorldInv, R.RxQueue.ValidAt, R.Filled, R.EndOfPacket, Link.Queue, WrapRing,
         Freelist.Valid, Freelist.Universe, Freelist.Live;
    es, z := RxDeviceRun(id, q, index, w);
    var desc := q.descriptors[index];
    if !R.Filled(desc) {
      return None, index, es, z;
    }
    if !R.EndOfPacket(desc) {
      return Some(R.FrameTooBig), index, es, z;
    }
    ghost var y, fs := z, [];
    var ok;
    ok, next, fs, z := ExchangeRun(id, q, index, lid, output, fl, y);
    LeadsOn(w, es, y, fs, z);
    es := es + fs;
    r := Some(if ok then R.Batch(1) else R.OutOfPackets);
  }

  // The receive loop, with the local indices it leaves.
  method TakeManyRun(id: nat, q: R.RxQueue, lid: nat, output: Link, numPackets: nat, fl: Freelist, ghost w: World)
    returns (outcome: R.Outcome, index: nat, lastIndex: nat, ghost es: seq<Event>, ghost z: World)
    requires Agrees(w, fl) && IsRx(w, id, q, q.rxIndex) && IsLink(w, lid, output) && WorldInv(w)
    requires fl.list != output.packets
    modifies q`bufsInUse, q`rdh, q`arrived, q`taken, q.descriptors, output, output.packets, fl, fl.list
    ensures Leads(w, es, z) && WorldInv(z) && Agrees(z, fl) && IsRx(z, id, q, index) && IsLink(z, lid, output)
    ensures z == w.(pool := z.pool, made := z.made, rxs := z.rxs, links := z.links)
    ensures index == lastIndex == q.rxIndex || Behind(q, lastIndex, index)
  {
    hide Leads, Next, WorldInv, IsRx, Behind, Link.Queue, Freelist.Valid, Freelist.Universe, Freelist.Live;
    LeadsNone(w);
    es, z := [], w;
    index, lastIndex := q.rxIndex, q.rxIndex;
    var received := 0;
    while received < numPackets
      invariant Leads(w, es, z) && WorldInv(z) && Agrees(z, fl) && IsRx(z, id, q, index) && IsLink(z, lid, output)
      invariant z == w.(pool := z.pool, made := z.made, rxs := z.rxs, links := z.links)
      invariant index == lastIndex == q.rxIndex || Behind(q, lastIndex, index)
    {
      ghost var y, fs := z, [];
      var r, next;
      r, next, fs, z := TakeOneRun(id, q, index, lid, output, fl, y);
      LeadsOn(w, es, y, fs, z);
      es := es + fs;
      if r.None? {
        outcome := R.Batch(received);
        return;
      }
      if r.value != R.Batch(1) {
        outcome := r.value;
        return;
      }
      lastIndex := index;
      index := next;
      received := received + 1;
    }
    outcome := R.Batch(received);
  }

  lemma BehindMoved(q: R.RxQueue, lastIndex: nat, index: nat)
    requires Behind(q, lastIndex, index) && IsPowerOfTwo(q.descriptors.Length)
    ensures index != lastIndex
  {
    WrapRingIsNext(lastIndex, q.descriptors.Length);
  }

  lemma RingSize(q: R.RxQueue, index: nat)
    requires q.ValidAt(index)
    ensures IsPowerOfTwo(q.descriptors.Length)
  {
  }

  method RxBatchRun(id: nat, q: R.RxQueue, lid: nat, output: Link, numPackets: nat, fl: Freelist, ghost w: World)
    returns (outcome: R.Outcome, ghost es: seq<Event>, ghost z: World)
    requires Agrees(w, fl) && IsRx(w, id, q, q.rxIndex) && IsLink(w, lid, output) && WorldInv(w)
    requires q.Valid() && fl.list != output.packets
    modifies q, q.descriptors, output, output.packets, fl, fl.list
    ensures Leads(w, es, z) && WorldInv(z) && Agrees(z, fl) && IsLink(z, lid, output)
    ensures outcome.Batch? ==> q.Valid() && IsRx(z, id, q, q.rxIndex)
    ensures z == w.(pool := z.pool, made := z.made, rxs := z.rxs, links := z.links)
  {
    hide Leads, Next, WorldInv, R.RxQueue.ValidAt, Link.Queue, WrapRing, Slot, IsPowerOfTwo,
         Freelist.Valid, Freelist.Universe, Freelist.Live;
    var index: nat, lastIndex: nat;
    outcome, index, lastIndex, es, z := TakeManyRun(id, q, lid, output, numPackets, fl, w);
    RingSize(q, index);
    if Behind(q, lastIndex, index) {
      BehindMoved(q, lastIndex, index);
    }
    if outcome.Batch? && index != lastIndex {
      ghost var y := z;
      z := ParkStep(id, q, lastIndex, index, y);
      LeadsMore(w, es, y, RxPublish(id), z);
      es := es + [RxPublish(id)];
    }
  }

  // ---- start_rx_queue ----

  // Boxes in scope beside those that were there before.
  ghost predicate HeldToo(before: map<nat, Packet>, bufs: seq<Packet>, held: map<nat, Packet>) {
    && Distinct(bufs) && Addrs(bufs) !! before.Keys && held.Keys == before.Keys + Addrs(bufs)
    && (forall a :: a in before ==> a in held && held[a] == before[a])
    && (forall k :: 0 <= k < |bufs| ==> bufs[k].addr in held && held[bufs[k].addr] == bufs[k])
  }

  lemma OneMoreHeld(before: map<nat, Packet>, bufs: seq<Packet>, held: map<nat, Packet>, p: Packet)
    requires HeldToo(before, bufs, held) && p.addr !in held
    ensures HeldToo(before, bufs + [p], held[p.addr := p])
  {
    DistinctPush(bufs, p);
    forall k | 0 <= k < |bufs|
      ensures bufs[k].addr != p.addr
    {
      assert bufs[k].addr in Addrs(bufs);
    }
  }

  lemma BoxesAre(before: map<nat, Packet>, bufs: seq<Packet>, held: map<nat, Packet>, boxes: seq<nat>)
    requires HeldToo(before, bufs, held)
    requires |boxes| == |bufs| && forall i :: 0 <= i < |bufs| ==> boxes[i] == bufs[i].addr
    ensures forall i :: 0 <= i < |boxes| ==> boxes[i] in held && held[boxes[i]] == bufs[i]
    ensures forall i, j :: 0 <= i < j < |boxes| ==> boxes[i] != boxes[j]
    ensures held - (set i | 0 <= i < |boxes| :: boxes[i]) == before
  {
    assert (set i | 0 <= i < |boxes| :: boxes[i]) == Addrs(bufs);
  }

  // Putting them all on a new ring.
  lemma StartWorld(w: World, before: map<nat, Packet>, id: nat, bufs: seq<Packet>)
    returns (boxes: seq<nat>, z: World)
    requires WorldInv(w) && HeldToo(before, bufs, w.held) && id !in w.rxs && bufs != [] && IsPowerOfTwo(|bufs|)
    ensures Next(w, RxStart(id, boxes), z) && WorldInv(z)
    ensures z == w.(rxs := w.rxs[id := R.Started(bufs).s], held := before)
  {
    hide WorldInv, HeldToo, R.Started, IsPowerOfTwo;
    boxes := seq(|bufs|, i requires 0 <= i < |bufs| => bufs[i].addr);
    BoxesAre(before, bufs, w.held, boxes);
    assert Boxes(w, boxes) == bufs;
    z := w.(rxs := w.rxs[id := R.Started(bufs).s], held := before);
    RxStartKeeps(w, id, boxes, z);
  }

  // The setup loop behind descriptor `i`, where these boxes were in scope before.
  ghost predicate ArmedTo(q: R.RxQueue, i: nat, before: map<nat, Packet>, held: map<nat, Packet>)
    reads q, q.descriptors
  {
    && q.rxIndex == 0 && q.rdh == 0 && q.taken == 0 && q.arrived == []
    && i == |q.bufsInUse| <= q.descriptors.Length && HeldToo(before, q.bufsInUse, held)
    && (forall k :: 0 <= k < i ==> q.descriptors[k] == R.Armed(q.bufsInUse[k]))
  }

  // One round of it; false is the allocation panic.
  method ArmNextRun(q: R.RxQueue, fl: Freelist, i: nat, ghost before: map<nat, Packet>, ghost w: World)
    returns (ok: bool, ghost es: seq<Event>, ghost z: World)
    requires Agrees(w, fl) && WorldInv(w) && i < q.descriptors.Length && ArmedTo(q, i, before, w.held)
    modifies q`bufsInUse, q.descriptors, fl, fl.list
    ensures Leads(w, es, z) && WorldInv(z) && Agrees(z, fl)
    ensures z == w.(pool := z.pool, made := z.made, held := z.held)
    ensures ok ==> ArmedTo(q, i + 1, before, z.held)
  {
    hide Leads, Next, WorldInv, Popped, R.Armed, HeldToo, Freelist.Valid, Freelist.Universe, Freelist.Live;
    LeadsNone(w);
    var np;
    ghost var y;
    np, y, z := AllocateStep(fl, w);
    if np.None? {
      return false, [], z;
    }
    es := LeadsAllocated(w, [], w, y, np.value, z);
    OneMoreHeld(before, q.bufsInUse, w.held, np.value);
    q.descriptors[i] := R.Armed(np.value);
    q.bufsInUse := q.bufsInUse + [np.value];
    ok := true;
  }

  lemma ArmedRing(q: R.RxQueue, before: map<nat, Packet>, held: map<nat, Packet>)
    requires ArmedTo(q, q.descriptors.Length, before, held) && IsPowerOfTwo(q.descriptors.Length)
    requires q.rdt == q.descriptors.Length - 1
    ensures q.Valid() && q.At(0) == R.Started(q.bufsInUse).s
  {
    hide R.RxQueue.Valid, Distinct, IsPowerOfTwo;
    BoxesApart(before, q.bufsInUse, held);
    q.StartedValid();
    assert q.At(0).desc == R.Started(q.bufsInUse).s.desc;
  }

  // The registers of a ring whose setup loop is done.
  method TakeTail(q: R.RxQueue, ghost before: map<nat, Packet>, ghost held: map<nat, Packet>)
    requires ArmedTo(q, q.descriptors.Length, before, held) && IsPowerOfTwo(q.descriptors.Length)
    requires q.descriptors.Length > 0
    modifies q`rdh, q`rdt
    ensures q.Valid() && q.At(0) == R.Started(q.bufsInUse).s && q.rxIndex == 0
    ensures HeldToo(before, q.bufsInUse, held) && |q.bufsInUse| == q.descriptors.Length
  {
    hide HeldToo, R.RxQueue.Valid, IsPowerOfTwo, R.Armed;
    q.rdh, q.rdt := 0, q.descriptors.Length - 1;
    ArmedRing(q, before, held);
  }

  // False is the error on the ring size, or the allocation panic.
  method RxStartRun(id: nat, numDescriptors: nat, fl: Freelist, ghost w: World)
    returns (q: R.RxQueue, ok: bool, ghost es: seq<Event>, ghost z: World)
    requires Agrees(w, fl) && WorldInv(w) && id !in w.rxs && numDescriptors > 0
    modifies fl, fl.list
    ensures Leads(w, es, z) && WorldInv(z) && Agrees(z, fl) && fresh(q) && fresh(q.descriptors)
    ensures ok ==> q.Valid() && IsRx(z, id, q, q.rxIndex) && z.held == w.held
    ensures ok ==> z == w.(pool := z.pool, made := z.made, rxs := z.rxs)
  {
    hide Leads, Next, WorldInv, ArmedTo, IsPowerOfTwo, BitAnd, R.RxQueue.ValidAt, R.Started, Boxes,
         Freelist.Valid, Freelist.Universe;
    LeadsNone(w);
    es, z := [], w;
    q := new R.RxQueue(numDescriptors);
    NoneArmed(q, w.held);
    PowerOfTwoTest(q.descriptors.Length);
    if BitAnd(q.descriptors.Length, q.descriptors.Length - 1) != 0 {
      return q, false, es, z;
    }
    for i := 0 to q.descriptors.Length
      invariant Leads(w, es, z) && WorldInv(z) && Agrees(z, fl) && ArmedTo(q, i, w.held, z.held)
      invariant z == w.(pool := z.pool, made := z.made, held := z.held)
    {
      ghost var y, fs := z, [];
      ok, fs, z := ArmNextRun(q, fl, i, w.held, y);
      LeadsOn(w, es, y, fs, z);
      es := es + fs;
      if !ok {
        return;
      }
    }
    TakeTail(q, w.held, z.held);
    ok := true;
    ghost var y, boxes := z, [];
    boxes, z := StartWorld(y, w.held, id, q.bufsInUse);
    LeadsMore(w, es, y, RxStart(id, boxes), z);
    es := es + [RxStart(id, boxes)];
  }

  lemma NoneArmed(q: R.RxQueue, held: map<nat, Packet>)
    requires q.rxIndex == 0 && q.rdh == 0 && q.taken == 0 && q.arrived == [] && q.bufsInUse == []
    ensures ArmedTo(q, 0, held, held)
  {
    NoPackets();
  }

  lemma BoxesApart(before: map<nat, Packet>, bufs: seq<Packet>, held: map<nat, Packet>)
    requires HeldToo(before, bufs, held)
    ensures Distinct(bufs)
  {
  }
}
