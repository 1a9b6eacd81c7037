// Where packets are. The freelist, the links, the receive and transmit rings
// with their devices, and the boxes held by running code make up one world; any
// interleaving of their steps keeps every packet in exactly one place.
module Ownership {
  import opened Words
  import opened Bits
  import opened Sets
  import opened Packets
  import opened Links
  import R = RxRing
  import T = TxRing

  datatype World = World(
    pool: Pool,
    made: set<nat>,                // addresses of the packets ever made
    held: map<nat, Packet>,        // boxes in scope, by address
    links: map<nat, Fifo>,
    rxs: map<nat, R.Rx>,
    txs: map<nat, T.Tx>)

  datatype Place = Free | Held | OnLink(id: nat) | OnRx(id: nat) | OnTx(id: nat)

  // The addresses of the packets at a place.
  ghost function Owner(w: World, place: Place): set<nat> {
    match place
    case Free => Addrs(w.pool.free)
    case Held => w.held.Keys
    case OnLink(id) => if id in w.links then Addrs(w.links[id].queue) else {}
    case OnRx(id) => if id in w.rxs then Addrs(w.rxs[id].bufs) else {}
    case OnTx(id) => if id in w.txs then Addrs(w.txs[id].bufs) else {}
  }

  // ---- Exactly one place ----

  ghost predicate Somewhere(w: World, addr: nat) {
    exists p :: addr in Owner(w, p)
  }

  // Every packet made is at one place, and only packets made are anywhere.
  ghost predicate Partition(w: World) {
    && (forall p, q :: p != q ==> Owner(w, p) !! Owner(w, q))
    && (forall p :: Owner(w, p) <= w.made)
    && (forall addr :: addr in w.made ==> Somewhere(w, addr))
  }

  // No place holds a packet twice, and every component is in order.
  ghost predicate FreeOk(free: seq<Packet>) {
    Distinct(free) && forall i :: 0 <= i < |free| ==> free[i].length == 0
  }

  ghost predicate HeldOk(held: map<nat, Packet>) {
    forall a :: a in held ==> held[a].addr == a
  }

  ghost predicate LinksOk(links: map<nat, Fifo>) {
    forall id :: id in links ==> Distinct(links[id].queue) && |links[id].queue| <= 1023
  }

  ghost predicate RxsOk(rxs: map<nat, R.Rx>) {
    forall id :: id in rxs ==> R.RxInv(rxs[id])
  }

  ghost predicate TxsOk(txs: map<nat, T.Tx>) {
    forall id :: id in txs ==> Distinct(txs[id].bufs) && T.TxInv(txs[id])
  }

  // The freelist's own accounts: refills of doubling size, up to the tenth.
  ghost predicate PoolOk(made: set<nat>, count: nat, step: nat) {
    |made| == count && exists k: nat :: k <= 9 && Refilled(count, step, k)
  }

  ghost predicate WorldInv(w: World) {
    && Partition(w) && FreeOk(w.pool.free) && HeldOk(w.held) && LinksOk(w.links)
    && RxsOk(w.rxs) && TxsOk(w.txs) && PoolOk(w.made, w.pool.made, w.pool.step)
  }

  // ---- Steps ----

  datatype Event =
    | Refill(supply: seq<Packet>)
    | Pop
    | FreeHeld(addr: nat)
    | Write(addr: nat, length: u16, data: Payload)
    | NewLink(link: nat)
    | Transmit(link: nat, addr: nat)
    | Receive(link: nat)
    | DropLink(link: nat)
    | RxStart(rx: nat, boxes: seq<nat>)
    | RxFill(rx: nat, rxBack: R.RxDesc, payload: Payload)
    | RxTake(rx: nat, addr: nat)
    | RxPublish(rx: nat)
    | TxStart(tx: nat, size: nat)
    | TxPut(tx: nat, addr: nat)
    | TxPublish(tx: nat)
    | TxComplete(tx: nat, txBack: T.TxDesc)
    | TxClean(tx: nat)

  // What the memory allocator hands out: packets never seen before.
  ghost predicate Unseen(w: World, supply: seq<Packet>) {
    && Distinct(supply) && Addrs(supply) !! w.made
    && (forall i :: 0 <= i < |supply| ==> supply[i].length == 0)
  }

  ghost function Boxes(w: World, addrs: seq<nat>): (ps: seq<Packet>)
    requires forall i :: 0 <= i < |addrs| ==> addrs[i] in w.held
    ensures |ps| == |addrs|
  {
    seq(|addrs|, i requires 0 <= i < |addrs| => w.held[addrs[i]])
  }

  // The steps of the program and of the devices, each where it is possible.

  ghost predicate Refills(w: World, supply: seq<Packet>, z: World) {
    && w.pool.free == [] && w.pool.made + w.pool.step <= MAX_PACKETS
    && |supply| == w.pool.step && Unseen(w, supply)
    && z == w.(pool := w.pool.(free := supply, made := w.pool.made + w.pool.step, step := 2 * w.pool.step),
               made := w.made + Addrs(supply))
  }

  ghost predicate Pops(w: World, z: World) {
    && w.pool.free != []
    && var last := |w.pool.free| - 1;
       var p := w.pool.free[last];
       z == w.(pool := w.pool.(free := w.pool.free[..last]), held := w.held[p.addr := p])
  }

  ghost predicate FreesHeld(w: World, addr: nat, z: World) {
    && addr in w.held
    && z == w.(pool := Freed(w.pool, w.held[addr]), held := w.held - {addr})
  }

  ghost predicate Writes(w: World, addr: nat, length: u16, data: Payload, z: World) {
    && addr in w.held
    && z == w.(held := w.held[addr := w.held[addr].(length := length, data := data)])
  }

  ghost predicate AddsLink(w: World, id: nat, z: World) {
    id !in w.links && z == w.(links := w.links[id := EMPTY])
  }

  ghost predicate Transmits(w: World, id: nat, addr: nat, z: World) {
    && addr in w.held && id in w.links
    && var f, p := w.links[id], w.held[addr];
       z == w.(links := w.links[id := Transmitted(f, p)], held := w.held - {addr},
               pool := if |f.queue| == 1023 then Freed(w.pool, p) else w.pool)
  }

  ghost predicate Receives(w: World, id: nat, z: World) {
    && id in w.links && w.links[id].queue != []
    && var p := w.links[id].queue[0];
       z == w.(links := w.links[id := Received(w.links[id])], held := w.held[p.addr := p])
  }

  ghost predicate DropsLink(w: World, id: nat, z: World) {
    && id in w.links
    && z == w.(links := w.links - {id}, pool := FreedAll(w.pool, w.links[id].queue))
  }

  ghost predicate StartsRx(w: World, id: nat, addrs: seq<nat>, z: World) {
    && id !in w.rxs && IsPowerOfTwo(|addrs|) && |addrs| > 0
    && (forall i :: 0 <= i < |addrs| ==> addrs[i] in w.held)
    && (forall i, j :: 0 <= i < j < |addrs| ==> addrs[i] != addrs[j])
    && z == w.(rxs := w.rxs[id := R.Started(Boxes(w, addrs)).s],
               held := w.held - (set i | 0 <= i < |addrs| :: addrs[i]))
  }

  ghost predicate FillsRx(w: World, id: nat, back: R.RxDesc, payload: Payload, z: World) {
    && id in w.rxs && R.InRing(w.rxs[id]) && w.rxs[id].rdh != w.rxs[id].rdt && R.Filled(back)
    && z == w.(rxs := w.rxs[id := R.Fill(w.rxs[id], back, payload)])
  }

  ghost predicate TakesRx(w: World, id: nat, addr: nat, z: World) {
    && id in w.rxs && R.InRing(w.rxs[id]) && R.Filled(w.rxs[id].desc[w.rxs[id].index])
    && R.EndOfPacket(w.rxs[id].desc[w.rxs[id].index]) && addr in w.held
    && var p := R.Next(w.rxs[id]);
       z == w.(rxs := w.rxs[id := R.Take(w.rxs[id], w.held[addr])],
               held := (w.held - {addr})[p.addr := p])
  }

  ghost predicate PublishesRx(w: World, id: nat, z: World) {
    && id in w.rxs && R.InRing(w.rxs[id])
    && z == w.(rxs := w.rxs[id := R.Publish(w.rxs[id])])
  }

  ghost predicate StartsTx(w: World, id: nat, size: nat, z: World) {
    id !in w.txs && IsPowerOfTwo(size) && z == w.(txs := w.txs[id := T.Started(size).s])
  }

  ghost predicate PutsTx(w: World, id: nat, addr: nat, z: World) {
    && id in w.txs && T.InRing(w.txs[id]) && T.HasRoom(w.txs[id]) && addr in w.held
    && z == w.(txs := w.txs[id := T.Put(w.txs[id], w.held[addr])], held := w.held - {addr})
  }

  ghost predicate PublishesTx(w: World, id: nat, z: World) {
    id in w.txs && z == w.(txs := w.txs[id := T.Publish(w.txs[id])])
  }

  ghost predicate CompletesTx(w: World, id: nat, back: T.TxDesc, z: World) {
    && id in w.txs && T.InRing(w.txs[id]) && w.txs[id].tdh != w.txs[id].tdt && T.Done(back)
    && z == w.(txs := w.txs[id := T.Complete(w.txs[id], back)])
  }

  ghost predicate CleansTx(w: World, id: nat, z: World) {
    && id in w.txs && T.InRing(w.txs[id]) && T.CanClean(w.txs[id])
    && z == w.(txs := w.txs[id := T.Cleaned(w.txs[id])],
               pool := FreedAll(w.pool, w.txs[id].bufs[..T.CleanCount(w.txs[id])]))
  }

  ghost predicate Next(w: World, e: Event, z: World) {
    match e
    case Refill(supply) => Refills(w, supply, z)
    case Pop => Pops(w, z)
    case FreeHeld(addr) => FreesHeld(w, addr, z)
    case Write(addr, length, data) => Writes(w, addr, length, data, z)
    case NewLink(id) => AddsLink(w, id, z)
    case Transmit(id, addr) => Transmits(w, id, addr, z)
    case Receive(id) => Receives(w, id, z)
    case DropLink(id) => DropsLink(w, id, z)
    case RxStart(id, addrs) => StartsRx(w, id, addrs, z)
    case RxFill(id, back, payload) => FillsRx(w, id, back, payload, z)
    case RxTake(id, addr) => TakesRx(w, id, addr, z)
    case RxPublish(id) => PublishesRx(w, id, z)
    case TxStart(id, size) => StartsTx(w, id, size, z)
    case TxPut(id, addr) => PutsTx(w, id, addr, z)
    case TxPublish(id) => PublishesTx(w, id, z)
    case TxComplete(id, back) => CompletesTx(w, id, back, z)
    case TxClean(id) => CleansTx(w, id, z)
  }

  // ---- Moving packets ----

  lemma PlacesApart(w: World, a: Place, b: Place)
    requires Partition(w) && a != b
    ensures Owner(w, a) !! Owner(w, b)
  {
  }

  // All places but these two are as they were.
  ghost predicate SameBut(w: World, z: World, a: Place, b: Place) {
    && z.made == w.made
    && (a == Free || b == Free || z.pool.free == w.pool.free)
    && (a == Held || b == Held || z.held.Keys == w.held.Keys)
    && (forall id :: OnLink(id) != a && OnLink(id) != b ==> Owner(z, OnLink(id)) == Owner(w, OnLink(id)))
    && (forall id :: OnRx(id) != a && OnRx(id) != b ==> Owner(z, OnRx(id)) == Owner(w, OnRx(id)))
    && (forall id :: OnTx(id) != a && OnTx(id) != b ==> Owner(z, OnTx(id)) == Owner(w, OnTx(id)))
  }

  lemma Elsewhere(w: World, z: World, a: Place, b: Place, p: Place)
    requires SameBut(w, z, a, b) && p != a && p != b
    ensures Owner(z, p) == Owner(w, p)
  {
    match p {
      case Free =>
      case Held =>
      case OnLink(id) => assert Owner(z, OnLink(id)) == Owner(w, OnLink(id));
      case OnRx(id) => assert Owner(z, OnRx(id)) == Owner(w, OnRx(id));
      case OnTx(id) => assert Owner(z, OnTx(id)) == Owner(w, OnTx(id));
    }
  }

  // Two places exchange packets among themselves; everything else stays.
  lemma Exchanged(w: World, z: World, a: Place, b: Place)
    requires Partition(w) && a != b && SameBut(w, z, a, b)
    requires Owner(z, a) + Owner(z, b) == Owner(w, a) + Owner(w, b)
    requires Owner(z, a) !! Owner(z, b)
    ensures Partition(z)
  {
    hide Owner, SameBut;
    assert z.made == w.made by {
      SameMade(w, z, a, b);
    }
    forall p | p != a && p != b
      ensures Owner(z, p) == Owner(w, p)
    {
      Elsewhere(w, z, a, b, p);
    }
    forall p, q | p != q
      ensures Owner(z, p) !! Owner(z, q)
    {
      assert Owner(w, p) !! Owner(w, q) && Owner(w, a) !! Owner(w, b);
      assert p != a && p != b ==> Owner(w, p) !! Owner(w, a) && Owner(w, p) !! Owner(w, b);
      assert q != a && q != b ==> Owner(w, q) !! Owner(w, a) && Owner(w, q) !! Owner(w, b);
    }
    forall p
      ensures Owner(z, p) <= z.made
    {
      assert Owner(w, p) <= w.made && Owner(w, a) <= w.made && Owner(w, b) <= w.made;
    }
    forall addr | addr in z.made
      ensures Somewhere(z, addr)
    {
      assert Somewhere(w, addr);
      var p :| addr in Owner(w, p);
      assert addr in Owner(z, a) || addr in Owner(z, b) || addr in Owner(z, p);
    }
  }

  lemma SameMade(w: World, z: World, a: Place, b: Place)
    requires SameBut(w, z, a, b)
    ensures z.made == w.made
  {
    hide Owner;
  }

  // No place but this one is changed, and it keeps its packets.
  lemma Unmoved(w: World, z: World, a: Place)
    requires Partition(w) && SameBut(w, z, a, a) && Owner(z, a) == Owner(w, a)
    ensures Partition(z)
  {
    hide Owner, SameBut, Partition;
    var b := if a == Free then Held else Free;
    PlacesApart(w, a, b);
    Elsewhere(w, z, a, a, b);
    SameButMore(w, z, a, b);
    Exchanged(w, z, a, b);
  }

  lemma SameButMore(w: World, z: World, a: Place, b: Place)
    requires SameBut(w, z, a, a)
    ensures SameBut(w, z, a, b)
  {
    hide Owner;
  }

  // ---- Packets in lists ----

  lemma Split(ps: seq<Packet>, k: nat)
    requires Distinct(ps) && k <= |ps|
    ensures Distinct(ps[..k]) && Distinct(ps[k..])
    ensures Addrs(ps[..k]) !! Addrs(ps[k..]) && Addrs(ps[..k]) + Addrs(ps[k..]) == Addrs(ps)
  {
    assert ps == ps[..k] + ps[k..];
    AddrsAppend(ps[..k], ps[k..]);
  }

  lemma OneAddr(ps: seq<Packet>)
    requires |ps| == 1
    ensures Addrs(ps) == {ps[0].addr}
  {
  }

  lemma AllFreed(pool: Pool, ps: seq<Packet>)
    requires Distinct(pool.free) && Distinct(ps) && Addrs(pool.free) !! Addrs(ps)
    requires forall i :: 0 <= i < |pool.free| ==> pool.free[i].length == 0
    ensures var z := FreedAll(pool, ps);
            && Distinct(z.free) && Addrs(z.free) == Addrs(pool.free) + Addrs(ps)
            && (forall i :: 0 <= i < |z.free| ==> z.free[i].length == 0)
            && z.made == pool.made && z.step == pool.step
  {
    FreedAllExactly(pool, ps);
    var back := seq(|ps|, i requires 0 <= i < |ps| => ps[i].(length := 0));
    R.SameAddrs(ps, back);
    AddrsAppend(pool.free, back);
    DistinctJoin(pool.free, back);
  }

  lemma FreedOne(pool: Pool, p: Packet)
    requires Distinct(pool.free) && p.addr !in Addrs(pool.free)
    requires forall i :: 0 <= i < |pool.free| ==> pool.free[i].length == 0
    ensures var z := Freed(pool, p);
            && Distinct(z.free) && Addrs(z.free) == Addrs(pool.free) + {p.addr}
            && (forall i :: 0 <= i < |z.free| ==> z.free[i].length == 0)
            && z.made == pool.made && z.step == pool.step
  {
    DistinctPush(pool.free, p.(length := 0));
  }

  // ---- Every step keeps the world in order ----

  lemma RefillKeeps(w: World, supply: seq<Packet>, z: World)
    requires WorldInv(w) && Refills(w, supply, z)
    ensures WorldInv(z)
  {
    hide HeldOk, LinksOk, RxsOk, TxsOk, Partition, PoolOk, Distinct, Addrs;
    PoolRefilled(w, supply);
    NoPackets();
    Supplied(w, z, supply);
  }

  lemma NoPackets()
    ensures Distinct([]) && Addrs([]) == {}
  {
  }

  lemma PoolRefilled(w: World, supply: seq<Packet>)
    requires PoolOk(w.made, w.pool.made, w.pool.step) && w.pool.made + w.pool.step <= MAX_PACKETS
    requires |supply| == w.pool.step && Unseen(w, supply)
    ensures PoolOk(w.made + Addrs(supply), w.pool.made + w.pool.step, 2 * w.pool.step)
  {
    hide Refilled, Distinct, Addrs;
    var k: nat :| k <= 9 && Refilled(w.pool.made, w.pool.step, k);
    RefillBound(w.pool.made, w.pool.step, k);
    assert Refilled(w.pool.made + w.pool.step, 2 * w.pool.step, k + 1);
    DistinctCount(supply);
  }

  lemma Supplied(w: World, z: World, supply: seq<Packet>)
    requires Partition(w) && w.pool.free == [] && Addrs([]) == {}
    requires z == w.(pool := z.pool, made := w.made + Addrs(supply))
    requires z.pool.free == supply && Addrs(supply) !! w.made
    ensures Partition(z)
  {
    hide Addrs;
    forall p, q | p != q
      ensures Owner(z, p) !! Owner(z, q)
    {
      assert Owner(w, p) !! Owner(w, q) && Owner(w, p) <= w.made && Owner(w, q) <= w.made;
    }
    forall p
      ensures Owner(z, p) <= z.made
    {
      assert Owner(w, p) <= w.made;
    }
    forall addr | addr in z.made
      ensures Somewhere(z, addr)
    {
      if addr in w.made {
        assert Somewhere(w, addr);
        var p :| addr in Owner(w, p);
        assert addr in Owner(z, p);
      } else {
        assert addr in Owner(z, Free);
      }
    }
  }

  lemma PopKeeps(w: World, z: World)
    requires WorldInv(w) && Pops(w, z)
    ensures WorldInv(z)
    // The box allocated is empty and was at no other place.
    ensures exists p: Packet :: p.length == 0 && z.held == w.held[p.addr := p] && NowhereElse(w, p.addr)
  {
    hide LinksOk, RxsOk, TxsOk, PoolOk, Partition, NowhereElse, Distinct, Addrs;
    var last := |w.pool.free| - 1;
    var p := w.pool.free[last];
    Split(w.pool.free, last);
    OneAddr(w.pool.free[last..]);
    PlacesApart(w, Free, Held);
    Exchanged(w, z, Free, Held);
    OnlyFree(w, p.addr);
  }

  ghost predicate NowhereElse(w: World, addr: nat) {
    forall q :: q != Free ==> addr !in Owner(w, q)
  }

  lemma OnlyFree(w: World, addr: nat)
    requires Partition(w) && addr in Addrs(w.pool.free)
    ensures NowhereElse(w, addr)
  {
    hide Addrs;
    forall q | q != Free
      ensures addr !in Owner(w, q)
    {
      assert Owner(w, Free) !! Owner(w, q);
    }
  }

  lemma FreeHeldKeeps(w: World, addr: nat, z: World)
    requires WorldInv(w) && FreesHeld(w, addr, z)
    ensures WorldInv(z)
  {
    hide LinksOk, RxsOk, TxsOk, PoolOk, Partition, Distinct, Addrs, Freed;
    PlacesApart(w, Free, Held);
    FreedOne(w.pool, w.held[addr]);
    Exchanged(w, z, Held, Free);
  }

  lemma WriteKeeps(w: World, addr: nat, length: u16, data: Payload, z: World)
    requires WorldInv(w) && Writes(w, addr, length, data, z)
    ensures WorldInv(z)
  {
    hide FreeOk, LinksOk, RxsOk, TxsOk, PoolOk, Partition, Addrs;
    assert z.held.Keys == w.held.Keys;
    Unmoved(w, z, Held);
  }

  lemma TransmitKeeps(w: World, id: nat, addr: nat, z: World)
    requires WorldInv(w) && Transmits(w, id, addr, z)
    ensures WorldInv(z)
  {
    hide WorldInv;
    if |w.links[id].queue| == 1023 {
      DroppedKeeps(w, id, addr, z);
    } else {
      QueuedKeeps(w, id, addr, z);
    }
  }

  lemma DroppedKeeps(w: World, id: nat, addr: nat, z: World)
    requires WorldInv(w) && Transmits(w, id, addr, z) && |w.links[id].queue| == 1023
    ensures WorldInv(z)
  {
    hide RxsOk, TxsOk, PoolOk, Partition, Distinct, Addrs, Freed;
    PlacesApart(w, Free, Held);
    FreedOne(w.pool, w.held[addr]);
    Exchanged(w, z, Held, Free);
  }

  lemma QueuedKeeps(w: World, id: nat, addr: nat, z: World)
    requires WorldInv(w) && Transmits(w, id, addr, z) && |w.links[id].queue| != 1023
    ensures WorldInv(z)
  {
    hide FreeOk, RxsOk, TxsOk, PoolOk, Partition, Distinct, Addrs;
    PlacesApart(w, OnLink(id), Held);
    DistinctPush(w.links[id].queue, w.held[addr]);
    Exchanged(w, z, Held, OnLink(id));
  }

  lemma ReceiveKeeps(w: World, id: nat, z: World)
    requires WorldInv(w) && Receives(w, id, z)
    ensures WorldInv(z)
  {
    hide FreeOk, RxsOk, TxsOk, PoolOk, Partition, Distinct, Addrs;
    var q := w.links[id].queue;
    Split(q, 1);
    OneAddr(q[..1]);
    PlacesApart(w, OnLink(id), Held);
    Exchanged(w, z, OnLink(id), Held);
  }

  lemma NewLinkKeeps(w: World, id: nat, z: World)
    requires WorldInv(w) && AddsLink(w, id, z)
    ensures WorldInv(z)
  {
    hide FreeOk, HeldOk, RxsOk, TxsOk, PoolOk, Partition, Distinct, Addrs;
    NoPackets();
    Unmoved(w, z, OnLink(id));
  }

  lemma DropLinkKeeps(w: World, id: nat, z: World)
    requires WorldInv(w) && DropsLink(w, id, z)
    ensures WorldInv(z)
  {
    hide HeldOk, RxsOk, TxsOk, PoolOk, Partition, Distinct, Addrs, FreedAll;
    PlacesApart(w, OnLink(id), Free);
    AllFreed(w.pool, w.links[id].queue);
    Exchanged(w, z, OnLink(id), Free);
  }

  lemma RxStartKeeps(w: World, id: nat, addrs: seq<nat>, z: World)
    requires WorldInv(w) && StartsRx(w, id, addrs, z)
    ensures WorldInv(z)
  {
    hide FreeOk, LinksOk, TxsOk, PoolOk, Partition, R.RxInv, R.Started, Distinct, Addrs, Boxes, IsPowerOfTwo;
    BoxAddrs(w, addrs);
    StartedRing(Boxes(w, addrs));
    assert Owner(z, Held) == w.held.Keys - Owner(z, OnRx(id));
    Exchanged(w, z, Held, OnRx(id));
  }

  lemma StartedRing(bufs: seq<Packet>)
    requires bufs != [] && IsPowerOfTwo(|bufs|) && Distinct(bufs)
    ensures R.RxInv(R.Started(bufs).s) && R.Started(bufs).s.bufs == bufs
  {
    hide R.RxInv;
    R.StartedSafe(bufs);
  }

  lemma BoxAddrs(w: World, addrs: seq<nat>)
    requires forall a :: a in w.held ==> w.held[a].addr == a
    requires forall i :: 0 <= i < |addrs| ==> addrs[i] in w.held
    requires forall i, j :: 0 <= i < j < |addrs| ==> addrs[i] != addrs[j]
    ensures Distinct(Boxes(w, addrs))
    ensures Addrs(Boxes(w, addrs)) == set i | 0 <= i < |addrs| :: addrs[i]
    ensures Addrs(Boxes(w, addrs)) <= w.held.Keys
  {
    var ps := Boxes(w, addrs);
    assert forall i :: 0 <= i < |ps| ==> ps[i].addr == addrs[i];
    forall x | x in Addrs(ps)
      ensures x in (set i | 0 <= i < |addrs| :: addrs[i])
    {
      var i :| 0 <= i < |ps| && ps[i].addr == x;
      assert addrs[i] == x;
    }
    forall i | 0 <= i < |addrs|
      ensures addrs[i] in Addrs(ps)
    {
      assert ps[i].addr in Addrs(ps);
    }
  }

  lemma FilledBufs(s: R.Rx, back: R.RxDesc, payload: Payload)
    requires R.RxInv(s) && s.rdh != s.rdt && R.Filled(back)
    ensures R.RxInv(R.Fill(s, back, payload)) && Addrs(R.Fill(s, back, payload).bufs) == Addrs(s.bufs)
  {
    hide R.Filled, R.Landed;
    R.FillKeeps(s, back, payload);
    R.SameAddrs(s.bufs, R.Fill(s, back, payload).bufs);
  }

  lemma RxFillKeeps(w: World, id: nat, back: R.RxDesc, payload: Payload, z: World)
    requires WorldInv(w) && FillsRx(w, id, back, payload, z)
    ensures WorldInv(z)
  {
    hide FreeOk, HeldOk, LinksOk, TxsOk, PoolOk, Partition, R.RxInv, R.Fill, R.Filled, Addrs;
    FilledBufs(w.rxs[id], back, payload);
    Unmoved(w, z, OnRx(id));
  }

  // Taking a frame swaps its packet for a new one.
  lemma Swap(s: R.Rx, np: Packet, held: set<nat>)
    requires R.RxInv(s) && R.Filled(s.desc[s.index]) && np.addr in held && Addrs(s.bufs) !! held
    ensures R.RxInv(R.Take(s, np))
    ensures var p := R.Next(s);
            && p.addr in Addrs(s.bufs)
            && Addrs(R.Take(s, np).bufs) == Addrs(s.bufs) - {p.addr} + {np.addr}
  {
    hide R.Filled;
    R.TakeKeeps(s, np);
    R.AddrsReplace(s.bufs, s.index, np);
    assert s.bufs[s.index].addr in Addrs(s.bufs);
  }

  lemma RxTakeKeeps(w: World, id: nat, addr: nat, z: World)
    requires WorldInv(w) && TakesRx(w, id, addr, z)
    ensures WorldInv(z)
  {
    hide FreeOk, LinksOk, TxsOk, PoolOk, R.Filled, R.EndOfPacket, R.RxInv, R.Take, R.Next, Partition, Addrs,
         IsPowerOfTwo;
    PlacesApart(w, OnRx(id), Held);
    Swap(w.rxs[id], w.held[addr], w.held.Keys);
    Exchanged(w, z, OnRx(id), Held);
  }

  lemma RxPublishKeeps(w: World, id: nat, z: World)
    requires WorldInv(w) && PublishesRx(w, id, z)
    ensures WorldInv(z)
  {
    hide FreeOk, HeldOk, LinksOk, TxsOk, PoolOk, Partition, R.RxInv, R.Publish, Addrs;
    PublishedRing(w.rxs[id]);
    Unmoved(w, z, OnRx(id));
  }

  lemma PublishedRing(s: R.Rx)
    requires R.RxInv(s)
    ensures R.RxInv(R.Publish(s)) && R.Publish(s).bufs == s.bufs
  {
    hide R.RxInv;
    R.PublishKeeps(s);
  }

  lemma FreshTx(size: nat)
    requires IsPowerOfTwo(size)
    ensures T.TxInv(T.Started(size).s) && Addrs(T.Started(size).s.bufs) == {}
    ensures Distinct(T.Started(size).s.bufs)
  {
  }

  lemma TxStartKeeps(w: World, id: nat, size: nat, z: World)
    requires WorldInv(w) && StartsTx(w, id, size, z)
    ensures WorldInv(z)
  {
    hide FreeOk, HeldOk, LinksOk, RxsOk, PoolOk, Partition, T.TxInv, T.Started, Distinct, Addrs, IsPowerOfTwo;
    FreshTx(size);
    Unmoved(w, z, OnTx(id));
  }

  lemma PutBufs(s: T.Tx, p: Packet)
    requires T.TxInv(s) && T.HasRoom(s) && Distinct(s.bufs) && p.addr !in Addrs(s.bufs)
    ensures T.TxInv(T.Put(s, p)) && Distinct(T.Put(s, p).bufs)
    ensures Addrs(T.Put(s, p).bufs) == Addrs(s.bufs) + {p.addr}
  {
    hide T.TxInv, T.HasRoom, Distinct, Addrs;
    T.PutKeeps(s, p);
    DistinctPush(s.bufs, p);
  }

  lemma TxPutKeeps(w: World, id: nat, addr: nat, z: World)
    requires WorldInv(w) && PutsTx(w, id, addr, z)
    ensures WorldInv(z)
  {
    hide FreeOk, LinksOk, RxsOk, PoolOk, Partition, T.TxInv, T.HasRoom, T.Put, Distinct, Addrs;
    PlacesApart(w, OnTx(id), Held);
    PutBufs(w.txs[id], w.held[addr]);
    Exchanged(w, z, Held, OnTx(id));
  }

  lemma TxPublishKeeps(w: World, id: nat, z: World)
    requires WorldInv(w) && PublishesTx(w, id, z)
    ensures WorldInv(z)
  {
    hide FreeOk, HeldOk, LinksOk, RxsOk, PoolOk, Partition, T.TxInv, Distinct, Addrs;
    T.PublishKeeps(w.txs[id]);
    Unmoved(w, z, OnTx(id));
  }

  lemma TxCompleteKeeps(w: World, id: nat, back: T.TxDesc, z: World)
    requires WorldInv(w) && CompletesTx(w, id, back, z)
    ensures WorldInv(z)
  {
    hide FreeOk, HeldOk, LinksOk, RxsOk, PoolOk, Partition, T.TxInv, T.Complete, T.Done, Distinct, Addrs;
    CompletedRing(w.txs[id], back);
    Unmoved(w, z, OnTx(id));
  }

  lemma CompletedRing(s: T.Tx, back: T.TxDesc)
    requires T.TxInv(s) && s.tdh != s.tdt && T.Done(back)
    ensures T.TxInv(T.Complete(s, back)) && T.Complete(s, back).bufs == s.bufs
  {
    hide T.TxInv, T.Done;
    T.CompleteKeeps(s, back);
  }

  lemma CleanedRing(s: T.Tx)
    requires T.TxInv(s) && T.CanClean(s) && Distinct(s.bufs)
    ensures T.TxInv(T.Cleaned(s)) && T.CleanCount(s) == 32 <= |s.bufs| && T.Cleaned(s).bufs == s.bufs[32..]
    ensures Distinct(s.bufs[..32]) && Distinct(s.bufs[32..]) && Addrs(s.bufs[..32]) !! Addrs(s.bufs[32..])
    ensures Addrs(s.bufs[..32]) + Addrs(s.bufs[32..]) == Addrs(s.bufs)
  {
    hide T.TxInv, T.CanClean, Distinct, Addrs;
    T.CleanKeeps(s);
    T.BatchCompleted(s);
    Split(s.bufs, 32);
  }

  lemma TxCleanKeeps(w: World, id: nat, z: World)
    requires WorldInv(w) && CleansTx(w, id, z)
    ensures WorldInv(z)
  {
    hide HeldOk, LinksOk, RxsOk, PoolOk, Partition, T.TxInv, T.CanClean, T.Cleaned, Distinct, Addrs, FreedAll;
    CleanedRing(w.txs[id]);
    PlacesApart(w, OnTx(id), Free);
    AllFreed(w.pool, w.txs[id].bufs[..32]);
    Exchanged(w, z, OnTx(id), Free);
  }

  lemma NextKeeps(w: World, z: World, e: Event)
    requires WorldInv(w) && Next(w, e, z)
    ensures WorldInv(z)
  {
    hide WorldInv, Refills, Pops, FreesHeld, Writes, AddsLink, Transmits, Receives, DropsLink, StartsRx, FillsRx,
         TakesRx, PublishesRx, StartsTx, PutsTx, PublishesTx, CompletesTx, CleansTx;
    match e {
      case Refill(supply) => RefillKeeps(w, supply, z);
      case Pop => PopKeeps(w, z);
      case FreeHeld(addr) => FreeHeldKeeps(w, addr, z);
      case Write(addr, length, data) => WriteKeeps(w, addr, length, data, z);
      case NewLink(id) => NewLinkKeeps(w, id, z);
      case Transmit(id, addr) => TransmitKeeps(w, id, addr, z);
      case Receive(id) => ReceiveKeeps(w, id, z);
      case DropLink(id) => DropLinkKeeps(w, id, z);
      case RxStart(id, addrs) => RxStartKeeps(w, id, addrs, z);
      case RxFill(id, back, payload) => RxFillKeeps(w, id, back, payload, z);
      case RxTake(id, addr) => RxTakeKeeps(w, id, addr, z);
      case RxPublish(id) => RxPublishKeeps(w, id, z);
      case TxStart(id, size) => TxStartKeeps(w, id, size, z);
      case TxPut(id, addr) => TxPutKeeps(w, id, addr, z);
      case TxPublish(id) => TxPublishKeeps(w, id, z);
      case TxComplete(id, back) => TxCompleteKeeps(w, id, back, z);
      case TxClean(id) => TxCleanKeeps(w, id, z);
    }
  }

  // ---- Whole runs ----

  ghost const START := World(Pool([], 0, 1000, Stats(0, 0, 0)), {}, map[], map[], map[], map[])

  ghost predicate Run(ws: seq<World>, es: seq<Event>) {
    && |ws| == |es| + 1 && ws[0] == START
    && (forall i :: 0 <= i < |es| ==> Next(ws[i], es[i], ws[i + 1]))
  }

  lemma StartInv()
    ensures WorldInv(START)
  {
    assert Refilled(0, 1000, 0);
    assert Addrs([]) == {};
  }

  // After any interleaving of program and device steps, every packet ever made
  // is in exactly one place, and as many were made as PACKETS_ALLOCATED says.
  lemma {:induction false} RunKeeps(ws: seq<World>, es: seq<Event>, n: nat)
    requires Run(ws, es) && n < |ws|
    ensures WorldInv(ws[n])
  {
    hide WorldInv, Next;
    if n == 0 {
      StartInv();
    } else {
      RunKeeps(ws, es, n - 1);
      NextKeeps(ws[n - 1], ws[n], es[n - 1]);
    }
  }

  ghost predicate ExactlyOnePlace(w: World, addr: nat) {
    && Somewhere(w, addr)
    && (forall p, q :: addr in Owner(w, p) && addr in Owner(w, q) ==> p == q)
  }

  lemma InOnePlace(ws: seq<World>, es: seq<Event>, n: nat, addr: nat)
    requires Run(ws, es) && n < |ws| && addr in ws[n].made
    ensures ExactlyOnePlace(ws[n], addr)
    ensures |ws[n].made| == ws[n].pool.made
  {
    hide Owner, RxsOk, TxsOk, Next;
    RunKeeps(ws, es, n);
    OneAtMost(ws[n], addr);
  }

  lemma OneAtMost(w: World, addr: nat)
    requires Partition(w) && addr in w.made
    ensures ExactlyOnePlace(w, addr)
  {
    hide Owner;
    forall p, q | addr in Owner(w, p) && addr in Owner(w, q)
      ensures p == q
    {
      assert p == q || Owner(w, p) !! Owner(w, q);
    }
  }

  // At most 511000 packets are ever made, in refills of doubling size, and there
  // is room on the freelist for any packet that is not on it.
  lemma NoOverflow(ws: seq<World>, es: seq<Event>, n: nat)
    requires Run(ws, es) && n < |ws|
    ensures exists k: nat :: k <= 9 && ws[n].pool.made == 1000 * (Pow2(k) - 1)
    ensures |ws[n].pool.free| <= ws[n].pool.made <= 511_000
    ensures forall p, addr :: p != Free && addr in Owner(ws[n], p) ==> |ws[n].pool.free| < MAX_PACKETS
  {
    RunKeeps(ws, es, n);
    var w := ws[n];
    var k: nat :| k <= 9 && Refilled(w.pool.made, w.pool.step, k);
    RefillBound(w.pool.made, w.pool.step, k);
    DistinctCount(w.pool.free);
    assert Owner(w, Free) <= w.made;
    SubsetCount(Addrs(w.pool.free), w.made);
  }
}
