// The apps of src/basic_apps.rs, over the links of their ports. The links of an
// app come in the order in which its table of ports is iterated.
module BasicApps {
  import opened Words
  import opened Packets
  import opened Links

  // ---- Copies on a link ----

  // What a link becomes when packets with these frames are put on it.
  ghost predicate GotCopies(f: Fifo, g: Fifo, frames: seq<Frame>) {
    exists copies: seq<Packet> :: Frames(copies) == frames && g == TransmittedAll(f, copies)
  }

  lemma NoCopies(f: Fifo)
    ensures GotCopies(f, f, [])
  {
    assert Frames([]) == [] && TransmittedAll(f, []) == f;
  }

  lemma OneMore(f: Fifo, g: Fifo, frames: seq<Frame>, copy: Packet)
    requires GotCopies(f, g, frames)
    ensures GotCopies(f, Transmitted(g, copy), frames + [FrameOf(copy)])
  {
    hide FrameOf, Transmitted;
    var copies :| Frames(copies) == frames && g == TransmittedAll(f, copies);
    var more := copies + [copy];
    assert more[..|more| - 1] == copies;
    assert Frames(more) == frames + [FrameOf(copy)];
  }

  // The output of a link that got copies: its old queue, then the longest prefix
  // of the frames that fits; the rest is counted as dropped.
  lemma CopiesFit(f: Fifo, g: Fifo, frames: seq<Frame>)
    requires GotCopies(f, g, frames) && |f.queue| <= 1023
    ensures var k := Min(|frames|, 1023 - |f.queue|);
            && Frames(g.queue) == Frames(f.queue) + frames[..k]
            && f.queue <= g.queue && g.txdrop == f.txdrop + (|frames| - k)
  {
    hide FrameOf;
    var copies :| Frames(copies) == frames && g == TransmittedAll(f, copies);
    TransmittedAllFits(f, copies);
    var k := Min(|frames|, 1023 - |f.queue|);
    assert Frames(f.queue + copies[..k]) == Frames(f.queue) + Frames(copies[..k]);
    assert Frames(copies[..k]) == frames[..k];
  }

  // ---- Several links ----

  // Links of an app: all different, each with a ring of its own.
  ghost predicate AllApart(ls: seq<Link>, fl: Freelist)
    reads ls
    ensures AllApart(ls, fl) ==> forall i :: 0 <= i < |ls| ==> ls[i].Valid()
  {
    && (forall i :: 0 <= i < |ls| ==> ls[i].Valid() && ls[i].packets != fl.list)
    && (forall i, j :: 0 <= i < j < |ls| ==> ls[i] != ls[j] && ls[i].packets != ls[j].packets)
  }

  // A link that is none of those.
  ghost predicate Beside(link: Link, ls: seq<Link>, fl: Freelist)
    reads link
    ensures Beside(link, ls, fl) ==> link.Valid()
  {
    && link.Valid() && link.packets != fl.list
    && (forall i :: 0 <= i < |ls| ==> ls[i] != link && ls[i].packets != link.packets)
  }

  ghost function AbsAll(ls: seq<Link>): (fs: seq<Fifo>)
    requires forall i :: 0 <= i < |ls| ==> ls[i].Valid()
    reads ls
    reads set l | l in ls :: l.packets
    ensures |fs| == |ls| && forall i :: 0 <= i < |ls| ==> fs[i] == ls[i].Abs()
  {
    hide Link.Abs, Link.Queue;
    seq(|ls|, i requires 0 <= i < |ls| && ls[i].Valid()
              reads ls, set l | l in ls :: l.packets => ls[i].Abs())
  }

  lemma AbsBounded(ls: seq<Link>)
    requires forall i :: 0 <= i < |ls| ==> ls[i].Valid()
    ensures Bounded(AbsAll(ls))
  {
    hide AbsAll, Link.Queue;
  }

  // Links that nothing happens to stay as they are.
  twostate lemma AbsSame(ls: seq<Link>)
    requires forall i :: 0 <= i < |ls| ==> old(ls[i].Valid())
    requires forall i :: 0 <= i < |ls| ==> unchanged(ls[i]) && unchanged(ls[i].packets)
    ensures forall i :: 0 <= i < |ls| ==> ls[i].Valid()
    ensures AbsAll(ls) == old(AbsAll(ls))
  {
    hide Link.Abs, Link.Queue, AbsAll;
    forall i | 0 <= i < |ls|
      ensures ls[i].Abs() == old(ls[i].Abs())
    {
    }
  }

  function Drops(fs: seq<Fifo>): nat {
    if fs == [] then 0 else Drops(fs[..|fs| - 1]) + fs[|fs| - 1].txdrop
  }

  lemma {:induction false} DropsUpdate(fs: seq<Fifo>, i: nat, f: Fifo)
    requires i < |fs|
    ensures Drops(fs[i := f]) == Drops(fs) - fs[i].txdrop + f.txdrop
  {
    var last := |fs| - 1;
    if i < last {
      DropsUpdate(fs[..last], i, f);
      assert fs[i := f][..last] == fs[..last][i := f];
    } else {
      assert fs[i := f][..last] == fs[..last];
    }
  }

  function SentBytes(fs: seq<Fifo>): nat {
    if fs == [] then 0 else SentBytes(fs[..|fs| - 1]) + fs[|fs| - 1].txbytes
  }

  lemma {:induction false} SentBytesUpdate(fs: seq<Fifo>, i: nat, f: Fifo)
    requires i < |fs|
    ensures SentBytes(fs[i := f]) == SentBytes(fs) - fs[i].txbytes + f.txbytes
  {
    var last := |fs| - 1;
    if i < last {
      SentBytesUpdate(fs[..last], i, f);
      assert fs[i := f][..last] == fs[..last][i := f];
    } else {
      assert fs[i := f][..last] == fs[..last];
    }
  }

  // What an app adds to the counters. The packets freed are `own` ones and those
  // that the links dropped; and of so many bytes put on links or freed as `own`
  // ones, each is counted as sent or as freed.
  ghost predicate Accounts(a: Stats, b: Stats, fs: seq<Fifo>, gs: seq<Fifo>, own: nat, bytes: nat) {
    && b.frees - a.frees == own + Drops(gs) - Drops(fs)
    && b.freebytes + SentBytes(gs) == a.freebytes + SentBytes(fs) + bytes
  }

  lemma AccountsNone(a: Stats, fs: seq<Fifo>)
    ensures Accounts(a, a, fs, fs, 0, 0)
  {
  }

  lemma AccountsJoin(a: Stats, b: Stats, c: Stats, fs: seq<Fifo>, gs: seq<Fifo>, hs: seq<Fifo>,
                     own: nat, own': nat, bytes: nat, bytes': nat)
    requires Accounts(a, b, fs, gs, own, bytes) && Accounts(b, c, gs, hs, own', bytes')
    ensures Accounts(a, c, fs, hs, own + own', bytes + bytes')
  {
    hide Drops, SentBytes;
  }

  // `n` times `x`.
  function Times(n: nat, x: nat): nat {
    if n == 0 then 0 else Times(n - 1, x) + x
  }

  lemma {:induction false} TimesIs(n: nat, x: nat)
    ensures Times(n, x) == n * x
  {
    if n > 0 {
      TimesIs(n - 1, x);
      assert n * x == (n - 1) * x + x;
    }
  }

  lemma {:induction false} TimesSum(n: nat, x: nat, y: nat)
    ensures Times(n, x + y) == Times(n, x) + Times(n, y)
  {
    if n > 0 {
      TimesSum(n - 1, x, y);
    }
  }

  // One more of equal shares.
  lemma AccountsTimes(a: Stats, b: Stats, c: Stats, fs: seq<Fifo>, gs: seq<Fifo>, hs: seq<Fifo>, n: nat, bytes: nat)
    requires Accounts(a, b, fs, gs, 0, Times(n, bytes)) && Accounts(b, c, gs, hs, 0, bytes)
    ensures Accounts(a, c, fs, hs, 0, Times(n + 1, bytes))
  {
    hide Drops, SentBytes;
  }

  ghost predicate AllGotCopies(fs: seq<Fifo>, gs: seq<Fifo>, frames: seq<Frame>)
    ensures AllGotCopies(fs, gs, frames) ==> |fs| == |gs|
  {
    |fs| == |gs| && forall j :: 0 <= j < |fs| ==> GotCopies(fs[j], gs[j], frames)
  }

  // ---- Room ----

  // How many of `n` packets put on a link stay there.
  function Stays(f: Fifo, n: nat): nat {
    if |f.queue| + n <= 1023 then n else if |f.queue| <= 1023 then 1023 - |f.queue| else 0
  }

  // On all of these links.
  function Fitting(fs: seq<Fifo>, n: nat): nat {
    if fs == [] then 0 else Fitting(fs[..|fs| - 1], n) + Stays(fs[|fs| - 1], n)
  }

  ghost predicate Bounded(fs: seq<Fifo>) {
    forall j :: 0 <= j < |fs| ==> |fs[j].queue| <= 1023
  }

  // Whether one more packet can be made for each link, when `t` were put on each
  // since `out` were out, and `gone` others were freed: just before the last one
  // is made, fewer are out than there can be.
  ghost predicate CanCopy(out: int, gone: nat, fs: seq<Fifo>, t: nat) {
    fs == [] || out - gone + Fitting(fs[..|fs| - 1], t + 1) + Stays(fs[|fs| - 1], t) < 511_000
  }

  // Whether `n` packets can be copied to every link one after the other, each
  // being freed once its copies are made.
  ghost predicate CanTee(out: int, fs: seq<Fifo>, n: nat) {
    forall t: nat :: t < n ==> CanCopy(out, t, fs, t)
  }

  lemma StaysMore(f: Fifo, g: Fifo, frames: seq<Frame>, n: nat)
    requires GotCopies(f, g, frames) && |f.queue| <= 1023
    ensures |g.queue| <= 1023 && Stays(g, n) == Stays(f, |frames| + n) - Stays(f, |frames|)
  {
    hide GotCopies;
    CopiesFit(f, g, frames);
    assert |Frames(g.queue)| == |g.queue| && |Frames(f.queue)| == |f.queue|;
  }

  lemma {:induction false} FittingMore(fs: seq<Fifo>, gs: seq<Fifo>, frames: seq<Frame>, n: nat)
    requires AllGotCopies(fs, gs, frames) && Bounded(fs)
    ensures Bounded(gs) && Fitting(gs, n) == Fitting(fs, |frames| + n) - Fitting(fs, |frames|)
    decreases |fs|
  {
    hide GotCopies, Stays;
    if fs != [] {
      var last := |fs| - 1;
      FittingMore(fs[..last], gs[..last], frames, n);
      StaysMore(fs[last], gs[last], frames, n);
    }
  }

  // Some packets on, seen from before they were put there.
  lemma CanCopyMore(fs: seq<Fifo>, gs: seq<Fifo>, frames: seq<Frame>, out: int, t: nat)
    requires AllGotCopies(fs, gs, frames) && Bounded(fs)
    ensures Bounded(gs)
    ensures CanCopy(out - |frames| + Fitting(fs, |frames|), t, gs, t) <==> CanCopy(out, |frames| + t, fs, |frames| + t)
    ensures Fitting(gs, t) == Fitting(fs, |frames| + t) - Fitting(fs, |frames|)
  {
    hide GotCopies, Stays;
    FittingMore(fs, gs, frames, t);
    if fs != [] {
      var last := |fs| - 1;
      FittingMore(fs[..last], gs[..last], frames, t + 1);
      StaysMore(fs[last], gs[last], frames, t);
    }
  }

  lemma CanTeeNext(out: int, fs: seq<Fifo>, n: nat)
    ensures CanTee(out, fs, 0)
    ensures CanTee(out, fs, n + 1) <==> CanTee(out, fs, n) && CanCopy(out, n, fs, n)
  {
    hide CanCopy;
    assert CanTee(out, fs, n + 1) ==> CanCopy(out, n, fs, n);
  }

  // The first packet that cannot be copied is the end.
  lemma CannotTee(out: int, fs: seq<Fifo>, t: nat, n: nat)
    requires !CanCopy(out, t, fs, t) && t < n
    ensures !CanTee(out, fs, n)
  {
    hide CanCopy;
  }

  lemma {:induction false} FittingUpTo(fs: seq<Fifo>, j: nat, n: nat)
    requires j <= |fs|
    ensures Fitting(fs[..j], n) <= Fitting(fs, n)
    decreases |fs|
  {
    if j == |fs| {
      assert fs[..j] == fs;
    } else {
      assert fs[..|fs| - 1][..j] == fs[..j];
      FittingUpTo(fs[..|fs| - 1], j, n);
    }
  }

  lemma FittingNext(fs: seq<Fifo>, j: nat, n: nat)
    requires j < |fs|
    ensures Fitting(fs[..j + 1], n) == Fitting(fs[..j], n) + Stays(fs[j], n)
    ensures Fitting(fs[..j], n) <= Fitting(fs[..|fs| - 1], n)
  {
    hide Stays;
    assert fs[..j + 1][..j] == fs[..j];
    assert fs[..|fs| - 1][..j] == fs[..j];
    FittingUpTo(fs[..|fs| - 1], j, n);
  }

  lemma NothingFits(fs: seq<Fifo>)
    ensures Fitting(fs, 0) == 0 || !Bounded(fs)
    decreases |fs|
  {
    if fs != [] {
      NothingFits(fs[..|fs| - 1]);
    }
  }

  // ---- Ownership ----

  // The links hold distinct live packets, each on one link only, and none of the
  // packets held elsewhere.
  ghost predicate Owned(fs: seq<Fifo>, others: set<nat>, live: set<nat>) {
    && others <= live
    && (forall i :: 0 <= i < |fs| ==> OwnedQueue(fs[i].queue, others, live))
    && (forall i, j :: 0 <= i < j < |fs| ==> Addrs(fs[i].queue) !! Addrs(fs[j].queue))
  }

  ghost predicate OwnedQueue(q: seq<Packet>, others: set<nat>, live: set<nat>) {
    Distinct(q) && Addrs(q) <= live && Addrs(q) !! others
  }

  lemma OwnedPut(fs: seq<Fifo>, others: set<nat>, live: set<nat>, j: nat, p: Packet)
    requires j < |fs| && p.addr !in others && Owned(fs, others + {p.addr}, live)
    ensures Owned(fs[j := Transmitted(fs[j], p)], others, if |fs[j].queue| == 1023 then live - {p.addr} else live)
  {
    hide Distinct, Addrs;
    var q := fs[j].queue;
    assert OwnedQueue(q, others + {p.addr}, live);
    DistinctPush(q, p);
    var gs, after := fs[j := Transmitted(fs[j], p)], if |q| == 1023 then live - {p.addr} else live;
    forall i | 0 <= i < |gs|
      ensures OwnedQueue(gs[i].queue, others, after)
    {
      assert OwnedQueue(fs[i].queue, others + {p.addr}, live);
    }
    forall i, k | 0 <= i < k < |gs|
      ensures Addrs(gs[i].queue) !! Addrs(gs[k].queue)
    {
      assert OwnedQueue(fs[i].queue, others + {p.addr}, live) && OwnedQueue(fs[k].queue, others + {p.addr}, live);
      assert Addrs(fs[i].queue) !! Addrs(fs[k].queue);
    }
  }

  lemma OwnedLive(fs: seq<Fifo>, others: set<nat>, live: set<nat>)
    requires Owned(fs, others, live)
    ensures others <= live
  {
  }

  // A new packet in hand, and one given back.
  lemma OwnedMore(fs: seq<Fifo>, others: set<nat>, live: set<nat>, addr: nat)
    requires Owned(fs, others, live) && addr !in live
    ensures Owned(fs, others + {addr}, live + {addr})
  {
    hide Distinct, Addrs;
  }

  lemma OwnedLess(fs: seq<Fifo>, others: set<nat>, live: set<nat>, fewer: set<nat>, addr: nat)
    requires Owned(fs, others, live) && addr in others && fewer <= others && addr !in fewer
    ensures Owned(fs, fewer, live - {addr})
  {
    hide Distinct, Addrs;
  }

  // The packets of some links, seen from the others.
  lemma OwnedSplit(ins: seq<Fifo>, outs: seq<Fifo>, others: set<nat>, live: set<nat>)
    requires Owned(ins + outs, others, live)
    ensures Owned(outs, others + Addrs(Flat(ins)), live)
    ensures Distinct(Flat(ins)) && Addrs(Flat(ins)) <= live && Addrs(Flat(ins)) !! others
    decreases |ins|
  {
    hide Distinct, Addrs, Flat;
    var all := ins + outs;
    assert Owned(ins, others, live) by {
      assert forall i :: 0 <= i < |ins| ==> all[i] == ins[i];
    }
    OwnedFlat(ins, others, live);
    forall j | 0 <= j < |outs|
      ensures OwnedQueue(outs[j].queue, others + Addrs(Flat(ins)), live)
    {
      assert all[|ins| + j] == outs[j];
      forall i | 0 <= i < |ins|
        ensures Addrs(ins[i].queue) !! Addrs(outs[j].queue)
      {
        assert all[i] == ins[i];
      }
      FlatApart(ins, Addrs(outs[j].queue));
    }
    forall i, j | 0 <= i < j < |outs|
      ensures Addrs(outs[i].queue) !! Addrs(outs[j].queue)
    {
      assert all[|ins| + i] == outs[i] && all[|ins| + j] == outs[j];
    }
  }

  lemma {:induction false} FlatApart(fs: seq<Fifo>, a: set<nat>)
    requires forall i :: 0 <= i < |fs| ==> Addrs(fs[i].queue) !! a
    ensures Addrs(Flat(fs)) !! a
  {
    hide Addrs, Distinct;
    if fs == [] {
      assert Addrs([]) == {} by {
        NoAddrs();
      }
    } else {
      var init := fs[..|fs| - 1];
      FlatApart(init, a);
      AddrsAppend(Flat(init), fs[|fs| - 1].queue);
    }
  }

  lemma NoAddrs()
    ensures Addrs([]) == {} && Distinct([])
  {
  }

  lemma {:induction false} OwnedFlat(fs: seq<Fifo>, others: set<nat>, live: set<nat>)
    requires Owned(fs, others, live)
    ensures Distinct(Flat(fs)) && Addrs(Flat(fs)) <= live && Addrs(Flat(fs)) !! others
  {
    hide Addrs, Distinct;
    if fs == [] {
      NoAddrs();
    } else {
      var init, q := fs[..|fs| - 1], fs[|fs| - 1].queue;
      OwnedFlat(init, others, live);
      assert OwnedQueue(q, others, live);
      FlatApart(init, Addrs(q));
      AddrsAppend(Flat(init), q);
      DistinctJoin(Flat(init), q);
    }
  }

  // Drained links own nothing.
  lemma OwnedJoin(ins: seq<Fifo>, outs: seq<Fifo>, others: set<nat>, live: set<nat>)
    requires Owned(outs, others, live) && forall i :: 0 <= i < |ins| ==> ins[i].queue == []
    ensures Owned(ins + outs, others, live)
  {
    hide Addrs, Distinct;
    NoAddrs();
    var all := ins + outs;
    assert forall i :: 0 <= i < |all| ==> all[i] == if i < |ins| then ins[i] else outs[i - |ins|];
  }

  lemma AbsAllJoin(ins: seq<Link>, outs: seq<Link>)
    requires forall i :: 0 <= i < |ins + outs| ==> (ins + outs)[i].Valid()
    ensures forall i :: 0 <= i < |ins| ==> ins[i].Valid()
    ensures forall i :: 0 <= i < |outs| ==> outs[i].Valid()
    ensures AbsAll(ins + outs) == AbsAll(ins) + AbsAll(outs)
  {
    hide Link.Queue, Link.Abs, AbsAll;
    var all := ins + outs;
    assert forall i :: 0 <= i < |ins| ==> all[i] == ins[i];
    assert forall i :: 0 <= i < |outs| ==> all[|ins| + i] == outs[i];
  }

  // ---- One link ----

  // Puts one more packet on a link; what it does to the accounts.
  method Put(output: Link, p: Packet, fl: Freelist)
    requires output.Valid() && fl.Valid() && p.addr in fl.Live() && output.packets != fl.list
    modifies output, output.packets, fl, fl.list
    ensures output.Valid() && fl.Valid() && output.Abs() == Transmitted(old(output.Abs()), p)
    ensures fl.stats.frees - old(fl.stats.frees) == output.txdrop - old(output.txdrop)
    ensures fl.stats.freebytes + output.txbytes == old(fl.stats.freebytes + output.txbytes) + p.length
    ensures fl.Live() == if |old(output.Queue())| == 1023 then old(fl.Live()) - {p.addr} else old(fl.Live())
  {
    hide Freelist.Valid, Freelist.Live, Link.Queue;
    output.Transmit(fl, p);
  }

  // ---- Tee ----

  // One link after a copy of a frame was put on it.
  ghost predicate CopyOn(f: Fifo, g: Fifo, frame: Frame) {
    exists copy: Packet :: FrameOf(copy) == frame && g == Transmitted(f, copy)
  }

  // One round of the inner loop.
  method SpreadTo(p: Packet, outputs: seq<Link>, j: nat, fl: Freelist, ghost others: set<nat>) returns (ok: bool)
    requires AllApart(outputs, fl) && fl.Valid() && j < |outputs| && Owned(AbsAll(outputs), others, fl.Live())
    modifies outputs[j], outputs[j].packets, fl, fl.list
    ensures AllApart(outputs, fl) && fl.Valid() && Owned(AbsAll(outputs), others, fl.Live())
    ensures ok <==> |old(fl.Live())| < 511_000
    ensures !ok ==> |old(fl.Live())| == 511_000
    ensures ok ==> |fl.Live()| == |old(fl.Live())| + Stays(old(AbsAll(outputs))[j], 1)
    ensures ok ==> CopyOn(old(AbsAll(outputs))[j], outputs[j].Abs(), FrameOf(p))
    ensures ok ==> AbsAll(outputs) == old(AbsAll(outputs))[j := outputs[j].Abs()]
    ensures ok ==> Accounts(old(fl.stats), fl.stats, old(AbsAll(outputs)), AbsAll(outputs), 0, p.length)
  {
    hide Freelist.Valid, Freelist.Live, Link.Queue, AbsAll, FrameOf, Transmitted, Accounts, Owned;
    ghost var live := fl.Live();
    fl.LiveAtMost();
    AbsBounded(outputs);
    var copy := fl.Clone(p);
    if copy.None? {
      return false;
    }
    OwnedMore(AbsAll(outputs), others, live, copy.value.addr);
    OwnedLive(AbsAll(outputs), others, live);
    PutOn(copy.value, outputs, j, fl, others);
    ok := true;
  }

  // The same, seen from the start of the loop.
  method SpreadNext(p: Packet, outputs: seq<Link>, j: nat, fl: Freelist, ghost from: TeeState, ghost others: set<nat>)
    returns (ok: bool)
    requires AllApart(outputs, fl) && fl.Valid() && j < |outputs| == |from.outputs|
    requires SpreadSome(from, TeeState(AbsAll(outputs), fl.Live(), fl.stats), j, others, FrameOf(p))
    modifies outputs[j], outputs[j].packets, fl, fl.list
    ensures AllApart(outputs, fl) && fl.Valid()
    ensures Owned(AbsAll(outputs), others, fl.Live())
    ensures !ok ==> !CanCopy(|from.live|, 0, from.outputs, 0)
    ensures ok ==> SpreadSome(from, TeeState(AbsAll(outputs), fl.Live(), fl.stats), j + 1, others, FrameOf(p))
  {
    hide Freelist.Valid, Freelist.Live, Link.Queue, AbsAll, FrameOf, Accounts, CopyOn, Owned, CanCopy, Stays,
         SpreadSome;
    ghost var now := TeeState(AbsAll(outputs), fl.Live(), fl.stats);
    BeforeSpread(from, now, j, others, FrameOf(p));
    ok := SpreadTo(p, outputs, j, fl, others);
    if ok {
      OneSpread(from, now, TeeState(AbsAll(outputs), fl.Live(), fl.stats), j, others, FrameOf(p));
    }
  }

  // A packet on one of several links.
  method PutOn(p: Packet, outputs: seq<Link>, j: nat, fl: Freelist, ghost others: set<nat>)
    requires AllApart(outputs, fl) && fl.Valid() && j < |outputs| && p.addr in fl.Live()
    requires p.addr !in others && Owned(AbsAll(outputs), others + {p.addr}, fl.Live())
    modifies outputs[j], outputs[j].packets, fl, fl.list
    ensures AllApart(outputs, fl) && fl.Valid() && Owned(AbsAll(outputs), others, fl.Live())
    ensures outputs[j].Abs() == Transmitted(old(AbsAll(outputs))[j], p)
    ensures fl.Live() == if |old(AbsAll(outputs))[j].queue| == 1023 then old(fl.Live()) - {p.addr} else old(fl.Live())
    ensures AbsAll(outputs) == old(AbsAll(outputs))[j := outputs[j].Abs()]
    ensures Accounts(old(fl.stats), fl.stats, old(AbsAll(outputs)), AbsAll(outputs), 0, p.length)
  {
    hide Freelist.Valid, Freelist.Live, Link.Queue, AbsAll, FrameOf, Transmitted, Drops, SentBytes, Owned;
    ghost var all := AbsAll(outputs);
    OwnedPut(all, others, fl.Live(), j, p);
    Put(outputs[j], p, fl);
    assert AbsAll(outputs) == all[j := outputs[j].Abs()];
    DropsUpdate(all, j, outputs[j].Abs());
    SentBytesUpdate(all, j, outputs[j].Abs());
  }

  // The inner loop of the tee: a copy of one packet on every output. False is
  // the allocation panic.
  method Spread(p: Packet, outputs: seq<Link>, fl: Freelist, ghost others: set<nat>) returns (ok: bool)
    requires AllApart(outputs, fl) && fl.Valid() && Owned(AbsAll(outputs), others, fl.Live())
    modifies outputs, set l | l in outputs :: l.packets, fl, fl.list
    ensures AllApart(outputs, fl) && fl.Valid() && Owned(AbsAll(outputs), others, fl.Live())
    ensures ok <==> CanCopy(|old(fl.Live())|, 0, old(AbsAll(outputs)), 0)
    ensures ok ==> |fl.Live()| == |old(fl.Live())| + Fitting(old(AbsAll(outputs)), 1)
    ensures ok ==> forall j :: 0 <= j < |outputs| ==>
              CopyOn(old(AbsAll(outputs))[j], AbsAll(outputs)[j], FrameOf(p))
    ensures ok ==> Accounts(old(fl.stats), fl.stats, old(AbsAll(outputs)), AbsAll(outputs),
                            0, Times(|outputs|, p.length))
  {
    hide Freelist.Valid, Freelist.Live, Link.Queue, AbsAll, FrameOf, Accounts, CopyOn, Owned, CanCopy, Stays, Fitting,
         Bounded, SpreadSome, AllApart;
    ghost var from := TeeState(AbsAll(outputs), fl.Live(), fl.stats);
    AbsBounded(outputs);
    NoneSpread(from, others, FrameOf(p));
    for j := 0 to |outputs|
      invariant AllApart(outputs, fl) && fl.Valid()
      invariant SpreadSome(from, TeeState(AbsAll(outputs), fl.Live(), fl.stats), j, others, FrameOf(p))
    {
      assert outputs[j] in outputs;
      ok := SpreadNext(p, outputs, j, fl, from, others);
      if !ok {
        return;
      }
    }
    AllSpread(from, TeeState(AbsAll(outputs), fl.Live(), fl.stats), others, FrameOf(p));
    ok := true;
  }

  // What the loops of the tee and the source change: the outputs, the packets that
  // are out, and the counters.
  datatype TeeState = TeeState(outputs: seq<Fifo>, live: set<nat>, stats: Stats)

  // The first `j` outputs have a copy.
  ghost predicate SpreadSome(a: TeeState, b: TeeState, j: nat, others: set<nat>, frame: Frame) {
    && j <= |a.outputs| == |b.outputs| && Bounded(a.outputs) && Owned(b.outputs, others, b.live)
    && (forall i :: 0 <= i < j ==> CopyOn(a.outputs[i], b.outputs[i], frame))
    && (forall i :: j <= i < |b.outputs| ==> b.outputs[i] == a.outputs[i])
    && Accounts(a.stats, b.stats, a.outputs, b.outputs, 0, Times(j, frame.length))
    && Copying(|a.live|, a.outputs, 0, j, |b.live|)
  }

  lemma NoneSpread(a: TeeState, others: set<nat>, frame: Frame)
    requires Bounded(a.outputs) && Owned(a.outputs, others, a.live)
    ensures SpreadSome(a, a, 0, others, frame)
  {
    hide Owned, Accounts;
    AccountsNone(a.stats, a.outputs);
  }

  lemma BeforeSpread(a: TeeState, b: TeeState, j: nat, others: set<nat>, frame: Frame)
    requires SpreadSome(a, b, j, others, frame) && j < |a.outputs|
    ensures |b.outputs| == |a.outputs| && Owned(b.outputs, others, b.live)
    ensures |b.live| >= 511_000 ==> !CanCopy(|a.live|, 0, a.outputs, 0)
  {
    hide CopyOn, Owned, Accounts, Copying, CanCopy, Stays, Bounded;
    NextCopied(|a.live|, a.outputs, 0, j, |b.live|);
  }

  lemma OneSpread(a: TeeState, b: TeeState, c: TeeState, j: nat, others: set<nat>, frame: Frame)
    requires SpreadSome(a, b, j, others, frame) && j < |b.outputs| == |c.outputs| && |b.live| < 511_000
    requires Owned(c.outputs, others, c.live) && Accounts(b.stats, c.stats, b.outputs, c.outputs, 0, frame.length)
    requires CopyOn(b.outputs[j], c.outputs[j], frame) && c.outputs == b.outputs[j := c.outputs[j]]
    requires |c.live| == |b.live| + Stays(b.outputs[j], 1)
    ensures SpreadSome(a, c, j + 1, others, frame)
  {
    hide CopyOn, Owned, Accounts, Copying, CanCopy, Stays, Bounded;
    AccountsTimes(a.stats, b.stats, c.stats, a.outputs, b.outputs, c.outputs, j, frame.length);
    NextCopied(|a.live|, a.outputs, 0, j, |b.live|);
  }

  lemma AllSpread(a: TeeState, b: TeeState, others: set<nat>, frame: Frame)
    requires SpreadSome(a, b, |a.outputs|, others, frame)
    ensures |b.outputs| == |a.outputs| && Owned(b.outputs, others, b.live)
    ensures forall i :: 0 <= i < |b.outputs| ==> CopyOn(a.outputs[i], b.outputs[i], frame)
    ensures Accounts(a.stats, b.stats, a.outputs, b.outputs, 0, Times(|a.outputs|, frame.length))
    ensures CanCopy(|a.live|, 0, a.outputs, 0) && |b.live| == |a.live| + Fitting(a.outputs, 1)
  {
    hide CopyOn, Owned, Accounts, Copying, CanCopy, Bounded;
    AllCopied(|a.live|, a.outputs, 0, |b.live|);
  }

  // The first `j` links have what they get, one packet more than `t`, and `now`
  // packets are out.
  ghost predicate Copying(out: nat, fs: seq<Fifo>, t: nat, j: nat, now: nat) {
    && j <= |fs| && now == out + Fitting(fs[..j], t + 1)
    && (j > 0 ==> out + Fitting(fs[..j - 1], t + 1) + Stays(fs[j - 1], t) < 511_000)
  }

  lemma NoneCopied(out: nat, fs: seq<Fifo>, t: nat)
    ensures Copying(out, fs, t, 0, out)
  {
  }

  // If too many are out for one link, they are for the last one.
  lemma NextCopied(out: nat, fs: seq<Fifo>, t: nat, j: nat, now: nat)
    requires Copying(out, fs, t, j, now) && j < |fs| && Bounded(fs)
    ensures Stays(fs[j], 0) == 0
    ensures now + Stays(fs[j], t) >= 511_000 ==> !CanCopy(out, 0, fs, t)
    ensures now + Stays(fs[j], t) < 511_000 ==> Copying(out, fs, t, j + 1, now + Stays(fs[j], t + 1))
  {
    hide Fitting;
    FittingNext(fs, j, t + 1);
    if j < |fs| - 1 {
      FittingUpTo(fs[..|fs| - 1], j + 1, t + 1);
      assert fs[..|fs| - 1][..j + 1] == fs[..j + 1];
    }
  }

  lemma AllCopied(out: nat, fs: seq<Fifo>, t: nat, now: nat)
    requires Copying(out, fs, t, |fs|, now) && Bounded(fs)
    ensures CanCopy(out, 0, fs, t) && now == out + Fitting(fs, t + 1)
  {
    assert fs[..|fs|] == fs;
  }

  // The packets of one input, in order, on every output; the input ends empty
  // and its own packets are freed.
  method TeeOne(input: Link, outputs: seq<Link>, fl: Freelist, ghost others: set<nat>) returns (ok: bool)
    requires AllApart(outputs, fl) && Beside(input, outputs, fl) && fl.Valid()
    requires Distinct(input.Queue()) && Addrs(input.Queue()) !! others
    requires Owned(AbsAll(outputs), others + Addrs(input.Queue()), fl.Live())
    modifies input, outputs, set l | l in outputs :: l.packets, fl, fl.list
    ensures AllApart(outputs, fl) && Beside(input, outputs, fl) && fl.Valid()
    ensures ok ==> Owned(AbsAll(outputs), others, fl.Live())
    ensures ok <==> CanTee(|old(fl.Live())|, old(AbsAll(outputs)), |old(input.Queue())|)
    ensures ok ==> |fl.Live()| ==
                     |old(fl.Live())| - |old(input.Queue())| + Fitting(old(AbsAll(outputs)), |old(input.Queue())|)
    ensures ok ==> input.Abs() == Drained(old(input.Abs()))
    ensures ok ==> AllGotCopies(old(AbsAll(outputs)), AbsAll(outputs), Frames(old(input.Queue())))
    ensures ok ==> Accounts(old(fl.stats), fl.stats, old(AbsAll(outputs)), AbsAll(outputs),
                            |old(input.Queue())|, Times(|outputs| + 1, TotalBytes(old(input.Queue()))))
  {
    hide Freelist.Valid, Freelist.Live, Link.Queue, AbsAll, Accounts, Distinct, Addrs, AllGotCopies, Owned, Teed,
         Drained, Frames, AllApart, Beside, CanCopy, CanTee, Fitting, Bounded;
    ghost var from := Teeing(input.Abs(), AbsAll(outputs), fl.Live(), fl.stats);
    ghost var done := 0;
    AbsBounded(outputs);
    TeedNone(from, others);
    ok := true;
    while true
      invariant ok && AllApart(outputs, fl) && Beside(input, outputs, fl) && fl.Valid() && done <= |from.input.queue|
      invariant Teed(from, Teeing(input.Abs(), AbsAll(outputs), fl.Live(), fl.stats), done, others)
      decreases |from.input.queue| - done
    {
      var empty := input.Empty();
      if empty {
        TeedAll(from, Teeing(input.Abs(), AbsAll(outputs), fl.Live(), fl.stats), done, others);
        return;
      }
      ok := TeePacket(input, outputs, fl, from, done, others);
      if !ok {
        CannotTee(|from.live|, from.outputs, done, |from.input.queue|);
        return;
      }
      done := done + 1;
    }
  }

  // What the loop of the tee over one input changes: the input, the outputs, the
  // packets that are out and the counters.
  datatype Teeing = Teeing(input: Fifo, outputs: seq<Fifo>, live: set<nat>, stats: Stats)

  // The first `done` packets of the input are copied and freed.
  ghost predicate Teed(a: Teeing, b: Teeing, done: nat, others: set<nat>)
    ensures Teed(a, b, done, others) ==> done <= |a.input.queue|
  {
    && done <= |a.input.queue| && b.input == ReceivedAll(a.input, done)
    && Owned(b.outputs, others + Addrs(a.input.queue[done..]), b.live)
    && AllGotCopies(a.outputs, b.outputs, Frames(a.input.queue[..done]))
    && Accounts(a.stats, b.stats, a.outputs, b.outputs, done, Times(|a.outputs| + 1, TotalBytes(a.input.queue[..done])))
    && Bounded(a.outputs) && |b.live| + done == |a.live| + Fitting(a.outputs, done)
    && CanTee(|a.live|, a.outputs, done)
  }

  lemma TeedNone(a: Teeing, others: set<nat>)
    requires Owned(a.outputs, others + Addrs(a.input.queue), a.live) && Bounded(a.outputs)
    ensures Teed(a, a, 0, others)
  {
    hide Owned, Addrs, AllGotCopies, Accounts;
    NothingFits(a.outputs);
    CanTeeNext(|a.live|, a.outputs, 0);
    TimesSum(|a.outputs| + 1, 0, 0);
    AccountsNone(a.stats, a.outputs);
    AllNoCopies(a.outputs);
    assert a.input.queue[0..] == a.input.queue;
  }

  lemma TeedAll(a: Teeing, b: Teeing, done: nat, others: set<nat>)
    requires Teed(a, b, done, others) && b.input.queue == []
    ensures b.input == Drained(a.input) && Owned(b.outputs, others, b.live)
    ensures AllGotCopies(a.outputs, b.outputs, Frames(a.input.queue))
    ensures Accounts(a.stats, b.stats, a.outputs, b.outputs,
                     |a.input.queue|, Times(|a.outputs| + 1, TotalBytes(a.input.queue)))
    ensures |b.live| + |a.input.queue| == |a.live| + Fitting(a.outputs, |a.input.queue|)
    ensures CanTee(|a.live|, a.outputs, |a.input.queue|)
  {
    hide Owned, Addrs, AllGotCopies, Accounts, CanCopy, CanTee, Fitting, Bounded;
    NoAddrs();
    assert a.input.queue[..done] == a.input.queue && others + {} == others;
  }

  // The packet to be copied next.
  lemma TeedFront(a: Teeing, b: Teeing, done: nat, others: set<nat>)
    requires Teed(a, b, done, others) && b.input.queue != []
    ensures done < |a.input.queue| && b.input.queue[0] == a.input.queue[done]
    ensures Owned(b.outputs, others + Addrs(a.input.queue[done..]), b.live)
    ensures CanCopy(|b.live|, 0, b.outputs, 0) <==> CanCopy(|a.live|, done, a.outputs, done)
    ensures Fitting(b.outputs, 1) == Fitting(a.outputs, done + 1) - Fitting(a.outputs, done)
  {
    hide Owned, Addrs, AllGotCopies, Accounts, CanCopy, CanTee, Fitting, Bounded;
    CanCopyMore(a.outputs, b.outputs, Frames(a.input.queue[..done]), |a.live|, 0);
    CanCopyMore(a.outputs, b.outputs, Frames(a.input.queue[..done]), |a.live|, 1);
  }

  // The copies of one packet and the packet itself.
  lemma TeedAccounts(a: Teeing, b: Teeing, c: Teeing, done: nat, stats: Stats)
    requires done < |a.input.queue| && |a.outputs| == |b.outputs|
    requires Accounts(a.stats, b.stats, a.outputs, b.outputs, done,
                      Times(|a.outputs| + 1, TotalBytes(a.input.queue[..done])))
    requires Accounts(b.stats, c.stats, b.outputs, c.outputs, 0, Times(|b.outputs|, a.input.queue[done].length))
    requires stats.frees == c.stats.frees + 1
    requires stats.freebytes == c.stats.freebytes + a.input.queue[done].length
    ensures Accounts(a.stats, stats, a.outputs, c.outputs, done + 1,
                     Times(|a.outputs| + 1, TotalBytes(a.input.queue[..done + 1])))
  {
    hide Drops, SentBytes, TotalBytes;
    var n, t, x := |a.outputs|, TotalBytes(a.input.queue[..done]), a.input.queue[done].length;
    assert a.input.queue[..done + 1] == a.input.queue[..done] + [a.input.queue[done]];
    TotalBytesPush(a.input.queue[..done], a.input.queue[done]);
    TimesSum(n + 1, t, x);
  }

  lemma TeedNext(a: Teeing, b: Teeing, c: Teeing, done: nat, others: set<nat>, p: Packet,
                 stats: Stats)
    requires Teed(a, b, done, others) && b.input.queue != [] && p == b.input.queue[0]
    requires Distinct(a.input.queue) && Addrs(a.input.queue) !! others
    requires c.input == Received(b.input) && |c.outputs| == |b.outputs|
    requires Owned(c.outputs, others + Addrs(a.input.queue[done..]), c.live)
    requires forall j :: 0 <= j < |c.outputs| ==> CopyOn(b.outputs[j], c.outputs[j], FrameOf(p))
    requires Accounts(b.stats, c.stats, b.outputs, c.outputs, 0, Times(|b.outputs|, p.length))
    requires stats.frees == c.stats.frees + 1 && stats.freebytes == c.stats.freebytes + p.length
    requires CanCopy(|b.live|, 0, b.outputs, 0) && |c.live| == |b.live| + Fitting(b.outputs, 1)
    ensures p.addr in c.live
    ensures Teed(a, c.(live := c.live - {p.addr}, stats := stats), done + 1, others)
  {
    hide Owned, Addrs, Distinct, AllGotCopies, CopyOn, Accounts, FrameOf, CanCopy, CanTee, Fitting, Bounded;
    TeedFront(a, b, done, others);
    var queue, held := a.input.queue, others + Addrs(a.input.queue[done..]);
    CopiesMore(a.outputs, b.outputs, c.outputs, queue, done);
    TeedAccounts(a, b, c, done, stats);
    CanTeeNext(|a.live|, a.outputs, done);
    FrontGoes(queue, done, others);
    OwnedLive(c.outputs, held, c.live);
    OwnedLess(c.outputs, held, c.live, others + Addrs(queue[done + 1..]), queue[done].addr);
  }

  // One packet of the input.
  method TeePacket(input: Link, outputs: seq<Link>, fl: Freelist,
                   ghost from: Teeing, ghost done: nat, ghost others: set<nat>)
    returns (ok: bool)
    requires AllApart(outputs, fl) && Beside(input, outputs, fl) && fl.Valid() && input.Queue() != []
    requires Distinct(from.input.queue) && Addrs(from.input.queue) !! others
    requires Teed(from, Teeing(input.Abs(), AbsAll(outputs), fl.Live(), fl.stats), done, others)
    modifies input, outputs, set l | l in outputs :: l.packets, fl, fl.list
    ensures AllApart(outputs, fl) && Beside(input, outputs, fl) && fl.Valid()
    ensures !ok ==> done < |from.input.queue| && !CanCopy(|from.live|, done, from.outputs, done)
    ensures ok ==> Teed(from, Teeing(input.Abs(), AbsAll(outputs), fl.Live(), fl.stats), done + 1, others)
  {
    hide Freelist.Valid, Freelist.Live, Link.Queue, AbsAll, FrameOf, Accounts, Distinct, Addrs, CopyOn, Teed, Owned,
         Freed, Received, CanCopy, CanTee, Fitting;
    ghost var before := Teeing(input.Abs(), AbsAll(outputs), fl.Live(), fl.stats);
    TeedFront(from, before, done, others);
    var p := input.Receive();
    AbsSame(outputs);
    ok := Spread(p.value, outputs, fl, others + Addrs(from.input.queue[done..]));
    if !ok {
      return;
    }
    ghost var copied := Teeing(input.Abs(), AbsAll(outputs), fl.Live(), fl.stats);
    FreedStats(fl.Abs(), p.value);
    TeedNext(from, before, copied, done, others, p.value, Freed(fl.Abs(), p.value).stats);
    label Copied:
    fl.Free(p.value);
    AbsSame@Copied(outputs);
    assert fl.Live() == copied.live - {p.value.addr} && fl.stats == Freed(old@Copied(fl.Abs()), p.value).stats;
    assert Teeing(input.Abs(), AbsAll(outputs), fl.Live(), fl.stats)
        == copied.(live := copied.live - {p.value.addr}, stats := fl.stats);
  }

  lemma FrontGoes(q: seq<Packet>, done: nat, others: set<nat>)
    requires done < |q| && Distinct(q) && Addrs(q) !! others
    ensures q[done].addr in Addrs(q[done..]) && q[done].addr !in others + Addrs(q[done + 1..])
    ensures Addrs(q[done + 1..]) <= Addrs(q[done..])
  {
    var rest := q[done..];
    assert rest[0].addr in Addrs(rest) && q[done].addr in Addrs(q);
    assert q[done + 1..] == rest[1..];
  }

  lemma PrefixAddrs(ps: seq<Packet>, k: nat)
    requires k <= |ps|
    ensures Addrs(ps[..k]) <= Addrs(ps)
  {
  }

  lemma AllNoCopies(fs: seq<Fifo>)
    ensures AllGotCopies(fs, fs, Frames([]))
  {
    forall j | 0 <= j < |fs|
      ensures GotCopies(fs[j], fs[j], [])
    {
      NoCopies(fs[j]);
    }
    assert Frames([]) == [];
  }

  lemma CopiesMore(before: seq<Fifo>, middle: seq<Fifo>, after: seq<Fifo>, queue: seq<Packet>, done: nat)
    requires done < |queue| && AllGotCopies(before, middle, Frames(queue[..done]))
    requires |after| == |middle|
    requires forall j :: 0 <= j < |after| ==> CopyOn(middle[j], after[j], FrameOf(queue[done]))
    ensures AllGotCopies(before, after, Frames(queue[..done + 1]))
  {
    hide FrameOf, Transmitted, GotCopies;
    assert Frames(queue[..done + 1]) == Frames(queue[..done]) + [FrameOf(queue[done])];
    forall j | 0 <= j < |after|
      ensures GotCopies(before[j], after[j], Frames(queue[..done + 1]))
    {
      var copy: Packet :| FrameOf(copy) == FrameOf(queue[done]) && after[j] == Transmitted(middle[j], copy);
      OneMore(before[j], middle[j], Frames(queue[..done]), copy);
    }
  }

  // ---- All inputs ----

  // What is queued on some links, in one row.
  function Flat(fs: seq<Fifo>): seq<Packet> {
    if fs == [] then [] else Flat(fs[..|fs| - 1]) + fs[|fs| - 1].queue
  }

  lemma {:induction false} FlatPrefix(fs: seq<Fifo>, n: nat)
    requires n <= |fs|
    ensures Flat(fs[..n]) <= Flat(fs)
    decreases |fs|
  {
    if n < |fs| {
      FlatPrefix(fs[..|fs| - 1], n);
      assert fs[..|fs| - 1][..n] == fs[..n];
    } else {
      assert fs[..n] == fs;
    }
  }

  lemma DistinctParts(a: seq<Packet>, b: seq<Packet>, all: seq<Packet>)
    requires a + b <= all && Distinct(all)
    ensures Distinct(b) && Addrs(b) !! Addrs(a)
  {
    assert forall i :: 0 <= i < |a| ==> all[i] == (a + b)[i] == a[i];
    assert forall i :: 0 <= i < |b| ==> all[|a| + i] == (a + b)[|a| + i] == b[i];
  }

  lemma FlatGrows(fs: seq<Fifo>, n: nat)
    requires n < |fs|
    ensures Flat(fs[..n + 1]) == Flat(fs[..n]) + fs[n].queue
  {
    assert fs[..n + 1][..n] == fs[..n];
  }

  // The next queue of a row of distinct packets.
  lemma FlatNext(fs: seq<Fifo>, n: nat)
    requires n < |fs| && Distinct(Flat(fs))
    ensures Flat(fs[..n + 1]) == Flat(fs[..n]) + fs[n].queue
    ensures Addrs(Flat(fs[..n + 1])) == Addrs(Flat(fs[..n])) + Addrs(fs[n].queue)
    ensures Distinct(fs[n].queue) && Addrs(fs[n].queue) !! Addrs(Flat(fs[..n]))
    ensures Addrs(fs[n].queue) <= Addrs(Flat(fs))
  {
    hide Distinct, Addrs, Flat;
    var row, all := Flat(fs[..n]) + fs[n].queue, Flat(fs);
    FlatGrows(fs, n);
    FlatPrefix(fs, n + 1);
    AddrsAppend(Flat(fs[..n]), fs[n].queue);
    PrefixAddrs(all, |row|);
    assert all[..|row|] == row;
    DistinctParts(Flat(fs[..n]), fs[n].queue, all);
  }

  // A link with all its packets taken off.
  function Drained(f: Fifo): (r: Fifo)
    ensures r.queue == []
  {
    ReceivedAll(f, |f.queue|)
  }

  // The first `n` links are drained, the others as they were.
  ghost predicate Waiting(ls: seq<Link>, fs: seq<Fifo>, n: nat)
    reads ls
    reads set l | l in ls :: l.packets
    ensures Waiting(ls, fs, n) ==> |fs| == |ls|
  {
    && |fs| == |ls|
    && (forall i :: 0 <= i < |ls| ==> ls[i].Valid())
    && (forall i :: 0 <= i < |ls| ==> ls[i].Abs() == if i < n then Drained(fs[i]) else fs[i])
  }

  lemma {:induction false} TransmittedAllAppend(f: Fifo, ps: seq<Packet>, qs: seq<Packet>)
    ensures TransmittedAll(f, ps + qs) == TransmittedAll(TransmittedAll(f, ps), qs)
  {
    hide Transmitted;
    if qs == [] {
      assert ps + qs == ps;
    } else {
      var last := |qs| - 1;
      TransmittedAllAppend(f, ps, qs[..last]);
      assert (ps + qs)[..|ps + qs| - 1] == ps + qs[..last];
    }
  }

  lemma CopiesJoin(f: Fifo, g: Fifo, h: Fifo, a: seq<Frame>, b: seq<Frame>)
    requires GotCopies(f, g, a) && GotCopies(g, h, b)
    ensures GotCopies(f, h, a + b)
  {
    hide FrameOf, TransmittedAll;
    var ps :| Frames(ps) == a && g == TransmittedAll(f, ps);
    var qs :| Frames(qs) == b && h == TransmittedAll(g, qs);
    TransmittedAllAppend(f, ps, qs);
    assert Frames(ps + qs) == a + b;
  }

  lemma AllCopiesJoin(fs: seq<Fifo>, gs: seq<Fifo>, hs: seq<Fifo>, ps: seq<Packet>, qs: seq<Packet>)
    requires AllGotCopies(fs, gs, Frames(ps)) && AllGotCopies(gs, hs, Frames(qs))
    ensures AllGotCopies(fs, hs, Frames(ps + qs))
  {
    hide GotCopies, FrameOf;
    assert Frames(ps + qs) == Frames(ps) + Frames(qs);
    forall j | 0 <= j < |fs|
      ensures GotCopies(fs[j], hs[j], Frames(ps + qs))
    {
      CopiesJoin(fs[j], gs[j], hs[j], Frames(ps), Frames(qs));
    }
  }

  lemma Parts(inputs: seq<Link>, outputs: seq<Link>, fl: Freelist)
    requires AllApart(inputs + outputs, fl)
    ensures AllApart(inputs, fl) && AllApart(outputs, fl)
    ensures forall i :: 0 <= i < |inputs| ==> Beside(inputs[i], outputs, fl)
  {
    var ls := inputs + outputs;
    assert forall i :: 0 <= i < |inputs| ==> ls[i] == inputs[i];
    assert forall j :: 0 <= j < |outputs| ==> ls[|inputs| + j] == outputs[j];
  }

  lemma Whole(inputs: seq<Link>, outputs: seq<Link>, fl: Freelist)
    requires AllApart(outputs, fl)
    requires forall i :: 0 <= i < |inputs| ==> Beside(inputs[i], outputs, fl)
    requires forall i, j :: 0 <= i < j < |inputs| ==>
               inputs[i] != inputs[j] && inputs[i].packets != inputs[j].packets
    ensures AllApart(inputs + outputs, fl)
  {
  }

  // One input, among all links of the app.
  method TeeNext(inputs: seq<Link>, outputs: seq<Link>, fl: Freelist, i: nat, ghost fs: seq<Fifo>,
                 ghost others: set<nat>)
    returns (ok: bool)
    requires AllApart(inputs + outputs, fl) && AllApart(outputs, fl) && fl.Valid()
    requires i < |inputs| && Waiting(inputs, fs, i) && Distinct(fs[i].queue) && Addrs(fs[i].queue) !! others
    requires Owned(AbsAll(outputs), others + Addrs(fs[i].queue), fl.Live())
    modifies inputs[i], outputs, set l | l in outputs :: l.packets, fl, fl.list
    ensures AllApart(inputs + outputs, fl) && AllApart(outputs, fl) && fl.Valid()
    ensures ok ==> Owned(AbsAll(outputs), others, fl.Live())
    ensures ok <==> CanTee(|old(fl.Live())|, old(AbsAll(outputs)), |fs[i].queue|)
    ensures ok ==> |fl.Live()| ==
                     |old(fl.Live())| - |fs[i].queue| + Fitting(old(AbsAll(outputs)), |fs[i].queue|)
    ensures ok ==> Waiting(inputs, fs, i + 1)
    ensures ok ==> AllGotCopies(old(AbsAll(outputs)), AbsAll(outputs), Frames(fs[i].queue))
    ensures ok ==> Accounts(old(fl.stats), fl.stats, old(AbsAll(outputs)), AbsAll(outputs),
                            |fs[i].queue|, Times(|outputs| + 1, TotalBytes(fs[i].queue)))
  {
    hide Freelist.Valid, Freelist.Live, Link.Queue, AbsAll, Frames, Accounts, Distinct, Addrs, AllGotCopies, Owned,
         CanTee, Fitting;
    Parts(inputs, outputs, fl);
    ok := TeeOne(inputs[i], outputs, fl, others);
    Whole(inputs, outputs, fl);
  }

  // The tee. Every output gets a copy of every packet that waited on the inputs,
  // in one order common to all outputs; a full output drops what is over. The
  // links own distinct live packets before and after.
  method Tee(inputs: seq<Link>, outputs: seq<Link>, fl: Freelist, ghost others: set<nat>)
    returns (ok: bool, ghost row: seq<Packet>)
    requires AllApart(inputs + outputs, fl) && AllApart(inputs, fl) && AllApart(outputs, fl) && fl.Valid()
    requires Owned(AbsAll(inputs + outputs), others, fl.Live())
    modifies inputs, outputs, set l | l in outputs :: l.packets, fl, fl.list
    ensures AllApart(inputs + outputs, fl) && AllApart(inputs, fl) && AllApart(outputs, fl) && fl.Valid()
    ensures row == old(Flat(AbsAll(inputs)))
    ensures ok ==> Owned(AbsAll(inputs + outputs), others, fl.Live())
    // It fails exactly when some packet finds too many out to be copied, those
    // before it being copied and freed. No packet is lost.
    ensures ok <==> CanTee(|old(fl.Live())|, old(AbsAll(outputs)), |row|)
    ensures ok ==> |fl.Live()| == |old(fl.Live())| - |row| + Fitting(old(AbsAll(outputs)), |row|)
    ensures ok ==> forall i :: 0 <= i < |inputs| ==> inputs[i].Abs() == Drained(old(AbsAll(inputs))[i])
    ensures ok ==> AllGotCopies(old(AbsAll(outputs)), AbsAll(outputs), Frames(row))
    ensures ok ==> Accounts(old(fl.stats), fl.stats, old(AbsAll(outputs)), AbsAll(outputs),
                            |row|, Times(|outputs| + 1, TotalBytes(row)))
  {
    hide Freelist.Valid, Freelist.Live, Link.Queue, AbsAll, Frames, Accounts, Distinct, Addrs, AllGotCopies, Flat,
         AllApart, Owned, CanTee, Fitting, Bounded, Drained, TeedInputs;
    ghost var fs := AbsAll(inputs);
    row := Flat(fs);
    ghost var from := TeeState(AbsAll(outputs), fl.Live(), fl.stats);
    AbsBounded(outputs);
    AbsAllJoin(inputs, outputs);
    NoInputs(from, fs, others);
    for i := 0 to |inputs|
      invariant AllApart(inputs + outputs, fl) && AllApart(outputs, fl) && fl.Valid()
      invariant Waiting(inputs, fs, i)
      invariant TeedInputs(from, TeeState(AbsAll(outputs), fl.Live(), fl.stats), fs, i, others)
    {
      ghost var middle := TeeState(AbsAll(outputs), fl.Live(), fl.stats);
      ghost var later := NextInput(from, middle, fs, i, others);
      assert inputs[i] in inputs;
      ok := TeeNext(inputs, outputs, fl, i, fs, later);
      Parts(inputs, outputs, fl);
      if !ok {
        return;
      }
      OneInput(from, middle, TeeState(AbsAll(outputs), fl.Live(), fl.stats), fs, i, others, later);
    }
    Parts(inputs, outputs, fl);
    AllInputs(from, TeeState(AbsAll(outputs), fl.Live(), fl.stats), fs, others);
    AbsAllJoin(inputs, outputs);
    OwnedJoin(AbsAll(inputs), AbsAll(outputs), others, fl.Live());
    ok := true;
  }

  // The first `i` inputs are copied and freed.
  ghost predicate TeedInputs(a: TeeState, b: TeeState, fs: seq<Fifo>, i: nat, others: set<nat>) {
    && i <= |fs| && Distinct(Flat(fs)) && Addrs(Flat(fs)) !! others
    && Owned(b.outputs, others + (Addrs(Flat(fs)) - Addrs(Flat(fs[..i]))), b.live)
    && AllGotCopies(a.outputs, b.outputs, Frames(Flat(fs[..i])))
    && Accounts(a.stats, b.stats, a.outputs, b.outputs,
                |Flat(fs[..i])|, Times(|a.outputs| + 1, TotalBytes(Flat(fs[..i]))))
    && TeedRow(|a.live|, a.outputs, |Flat(fs[..i])|, |b.live|)
  }

  lemma NoInputs(a: TeeState, fs: seq<Fifo>, others: set<nat>)
    requires Owned(fs + a.outputs, others, a.live) && Bounded(a.outputs)
    ensures TeedInputs(a, a, fs, 0, others)
  {
    hide Distinct, Addrs, Owned, AllGotCopies, Frames, Accounts, TeedRow, Bounded;
    NoRow(|a.live|, a.outputs);
    TimesSum(|a.outputs| + 1, 0, 0);
    AccountsNone(a.stats, a.outputs);
    OwnedSplit(fs, a.outputs, others, a.live);
    AllNoCopies(a.outputs);
    NoAddrs();
    assert others + (Addrs(Flat(fs)) - {}) == others + Addrs(Flat(fs));
  }

  // The packets that wait on the inputs behind the next one belong to others.
  lemma NextInput(a: TeeState, b: TeeState, fs: seq<Fifo>, i: nat, others: set<nat>) returns (later: set<nat>)
    requires TeedInputs(a, b, fs, i, others) && i < |fs|
    ensures later == others + (Addrs(Flat(fs)) - Addrs(Flat(fs[..i + 1])))
    ensures Distinct(fs[i].queue) && Addrs(fs[i].queue) !! later
    ensures Owned(b.outputs, later + Addrs(fs[i].queue), b.live)
    ensures !CanTee(|b.live|, b.outputs, |fs[i].queue|) ==> !CanTee(|a.live|, a.outputs, |Flat(fs)|)
  {
    hide Distinct, Addrs, Owned, AllGotCopies, Frames, Accounts, CanTee, TeedRow, Flat;
    FlatNext(fs, i);
    later := others + (Addrs(Flat(fs)) - Addrs(Flat(fs[..i + 1])));
    assert others + (Addrs(Flat(fs)) - Addrs(Flat(fs[..i]))) == later + Addrs(fs[i].queue);
    NextRow(|a.live|, a.outputs, Flat(fs[..i]), |b.live|, b.outputs, |fs[i].queue|);
    FlatPrefix(fs, i + 1);
    CanTeeFewer(|a.live|, a.outputs, |Flat(fs[..i + 1])|, |Flat(fs)|);
  }

  lemma RowAccounts(n: nat, ps: seq<Packet>, qs: seq<Packet>)
    ensures Times(n, TotalBytes(ps + qs)) == Times(n, TotalBytes(ps)) + Times(n, TotalBytes(qs))
  {
    TotalBytesAppend(ps, qs);
    TimesSum(n, TotalBytes(ps), TotalBytes(qs));
  }

  lemma OneInput(a: TeeState, b: TeeState, c: TeeState, fs: seq<Fifo>, i: nat, others: set<nat>, later: set<nat>)
    requires TeedInputs(a, b, fs, i, others) && i < |fs|
    requires later == others + (Addrs(Flat(fs)) - Addrs(Flat(fs[..i + 1])))
    requires Owned(c.outputs, later, c.live) && AllGotCopies(b.outputs, c.outputs, Frames(fs[i].queue))
    requires Accounts(b.stats, c.stats, b.outputs, c.outputs,
                      |fs[i].queue|, Times(|b.outputs| + 1, TotalBytes(fs[i].queue)))
    requires CanTee(|b.live|, b.outputs, |fs[i].queue|)
    requires |c.live| == |b.live| - |fs[i].queue| + Fitting(b.outputs, |fs[i].queue|)
    ensures TeedInputs(a, c, fs, i + 1, others)
  {
    hide Distinct, Addrs, Owned, AllGotCopies, Frames, Accounts, CanTee, TeedRow, Flat, Fitting;
    FlatNext(fs, i);
    NextRow(|a.live|, a.outputs, Flat(fs[..i]), |b.live|, b.outputs, |fs[i].queue|);
    RowAccounts(|a.outputs| + 1, Flat(fs[..i]), fs[i].queue);
    AccountsJoin(a.stats, b.stats, c.stats, a.outputs, b.outputs, c.outputs, |Flat(fs[..i])|, |fs[i].queue|,
                 Times(|a.outputs| + 1, TotalBytes(Flat(fs[..i]))), Times(|a.outputs| + 1, TotalBytes(fs[i].queue)));
    AllCopiesJoin(a.outputs, b.outputs, c.outputs, Flat(fs[..i]), fs[i].queue);
  }

  lemma AllInputs(a: TeeState, b: TeeState, fs: seq<Fifo>, others: set<nat>)
    requires TeedInputs(a, b, fs, |fs|, others)
    ensures Owned(b.outputs, others, b.live)
    ensures AllGotCopies(a.outputs, b.outputs, Frames(Flat(fs)))
    ensures Accounts(a.stats, b.stats, a.outputs, b.outputs,
                     |Flat(fs)|, Times(|a.outputs| + 1, TotalBytes(Flat(fs))))
    ensures CanTee(|a.live|, a.outputs, |Flat(fs)|)
    ensures |b.live| == |a.live| - |Flat(fs)| + Fitting(a.outputs, |Flat(fs)|)
  {
    hide Distinct, Addrs, Owned, AllGotCopies, Frames, Accounts, CanTee, Flat, Fitting, Bounded;
    assert fs[..|fs|] == fs;
    assert others + (Addrs(Flat(fs)) - Addrs(Flat(fs))) == others;
  }

  // So many packets are copied, each when that could be done, and freed.
  ghost predicate TeedRow(out: nat, fs: seq<Fifo>, n: nat, now: int) {
    Bounded(fs) && now + n == out + Fitting(fs, n) && CanTee(out, fs, n)
  }

  lemma NoRow(out: nat, fs: seq<Fifo>)
    requires Bounded(fs)
    ensures TeedRow(out, fs, 0, out)
  {
    NothingFits(fs);
  }

  // The packets of one more input.
  lemma NextRow(out: nat, fs: seq<Fifo>, row: seq<Packet>, now: int, gs: seq<Fifo>, more: nat)
    requires TeedRow(out, fs, |row|, now) && AllGotCopies(fs, gs, Frames(row))
    ensures CanTee(now, gs, more) <==> CanTee(out, fs, |row| + more)
    ensures CanTee(now, gs, more) ==> TeedRow(out, fs, |row| + more, now - more + Fitting(gs, more))
  {
    hide CanCopy, Fitting, Bounded, AllGotCopies;
    var n := |row|;
    CanCopyMore(fs, gs, Frames(row), out, more);
    forall t: nat
      ensures CanCopy(now, t, gs, t) <==> CanCopy(out, n + t, fs, n + t)
    {
      CanCopyMore(fs, gs, Frames(row), out, t);
    }
    if CanTee(now, gs, more) {
      forall t: nat | t < n + more
        ensures CanCopy(out, t, fs, t)
      {
        if t >= n {
          assert CanCopy(now, t - n, gs, t - n);
        }
      }
    }
    if CanTee(out, fs, n + more) {
      forall t: nat | t < more
        ensures CanCopy(now, t, gs, t)
      {
        assert CanCopy(out, n + t, fs, n + t);
      }
    }
  }

  // Some rows cannot be copied if the first ones cannot.
  lemma CanTeeFewer(out: int, fs: seq<Fifo>, m: nat, n: nat)
    ensures m <= n && CanTee(out, fs, n) ==> CanTee(out, fs, m)
  {
    hide CanCopy;
  }

  // What does not fit, over all outputs, when `n` packets are put on each.
  function Overflow(fs: seq<Fifo>, n: nat): nat
    requires forall j :: 0 <= j < |fs| ==> |fs[j].queue| <= 1023
  {
    if fs == [] then 0
    else Overflow(fs[..|fs| - 1], n) + (n - Min(n, 1023 - |fs[|fs| - 1].queue|))
  }

  // The outputs of a tee or a source: the old queue and the longest prefix of
  // the frames that fits, on every output.
  lemma OutputsGot(fs: seq<Fifo>, gs: seq<Fifo>, frames: seq<Frame>)
    requires AllGotCopies(fs, gs, frames) && forall j :: 0 <= j < |fs| ==> |fs[j].queue| <= 1023
    ensures forall j :: 0 <= j < |fs| ==>
              Frames(gs[j].queue) == Frames(fs[j].queue) + frames[..Min(|frames|, 1023 - |fs[j].queue|)]
  {
    hide GotCopies, Frames;
    forall j | 0 <= j < |fs|
      ensures Frames(gs[j].queue) == Frames(fs[j].queue) + frames[..Min(|frames|, 1023 - |fs[j].queue|)]
    {
      CopiesFit(fs[j], gs[j], frames);
    }
  }

  // The rest is what they drop.
  lemma {:induction false} DropsGot(fs: seq<Fifo>, gs: seq<Fifo>, frames: seq<Frame>)
    requires AllGotCopies(fs, gs, frames) && forall j :: 0 <= j < |fs| ==> |fs[j].queue| <= 1023
    ensures Drops(gs) == Drops(fs) + Overflow(fs, |frames|)
    decreases |fs|
  {
    hide GotCopies, Frames;
    if fs != [] {
      var last := |fs| - 1;
      CopiesFit(fs[last], gs[last], frames);
      DropsGot(fs[..last], gs[..last], frames);
    }
  }

  // ---- Sink ----

  // One input, drained as when a link is dropped.
  method SinkNext(inputs: seq<Link>, fl: Freelist, i: nat, ghost fs: seq<Fifo>)
    requires AllApart(inputs, fl) && fl.Valid()
    requires i < |inputs| && Waiting(inputs, fs, i) && Distinct(fs[i].queue) && Addrs(fs[i].queue) <= fl.Live()
    modifies inputs[i], fl, fl.list
    ensures AllApart(inputs, fl) && fl.Valid() && Waiting(inputs, fs, i + 1)
    ensures fl.Abs() == FreedAll(old(fl.Abs()), fs[i].queue)
    ensures fl.Live() == old(fl.Live()) - Addrs(fs[i].queue)
  {
    hide Freelist.Valid, Freelist.Live, Freelist.Abs, Link.Queue, Distinct, Addrs, FreedAll;
    inputs[i].Drop(fl);
  }

  // The sink frees every packet that waits on its inputs, each once, in order.
  method Sink(inputs: seq<Link>, fl: Freelist, ghost others: set<nat>)
    requires AllApart(inputs, fl) && fl.Valid()
    requires Owned(AbsAll(inputs), others, fl.Live())
    modifies inputs, fl, fl.list
    ensures AllApart(inputs, fl) && fl.Valid()
    ensures Owned(AbsAll(inputs), others, fl.Live())
    ensures forall i :: 0 <= i < |inputs| ==> inputs[i].Abs() == Drained(old(AbsAll(inputs))[i])
    ensures fl.Abs() == FreedAll(old(fl.Abs()), old(Flat(AbsAll(inputs))))
    ensures fl.Live() == old(fl.Live()) - Addrs(old(Flat(AbsAll(inputs))))
  {
    hide Freelist.Valid, Freelist.Live, Freelist.Abs, Link.Queue, Distinct, Addrs, FreedAll, Flat, AbsAll, AllApart,
         Owned;
    ghost var fs, live, pool := AbsAll(inputs), fl.Live(), fl.Abs();
    OwnedFlat(fs, others, live);
    OwnedLive(fs, others, live);
    SinkStart(fs, pool);
    for i := 0 to |inputs|
      invariant AllApart(inputs, fl) && fl.Valid() && Waiting(inputs, fs, i)
      invariant fl.Abs() == FreedAll(pool, Flat(fs[..i]))
      invariant fl.Live() == live - Addrs(Flat(fs[..i]))
    {
      FlatNext(fs, i);
      FreedAllJoin(pool, Flat(fs[..i]), fs[i].queue);
      assert inputs[i] in inputs;
      SinkNext(inputs, fl, i, fs);
    }
    assert fs[..|inputs|] == fs;
    OwnedNone(AbsAll(inputs), others, fl.Live());
  }

  lemma OwnedNone(fs: seq<Fifo>, others: set<nat>, live: set<nat>)
    requires others <= live && forall i :: 0 <= i < |fs| ==> fs[i].queue == []
    ensures Owned(fs, others, live)
  {
    NoAddrs();
  }

  lemma SinkStart(gs: seq<Fifo>, pool: Pool)
    ensures FreedAll(pool, Flat(gs[..0])) == pool && Addrs(Flat(gs[..0])) == {}
  {
  }

  // ---- Source ----

  // A packet of the source: `size` zero bytes, as far as the payload goes.
  function Zeroed(p: Packet, size: u16): (r: Packet)
    ensures r.addr == p.addr && FrameOf(r) == ZeroFrame(size)
  {
    var n := Min(size, 10240);
    var data := seq(n, _ => 0) + p.data[n..];
    assert data[..n] == seq(n, _ => 0);
    p.(data := data, length := size)
  }

  function ZeroFrame(size: u16): Frame {
    Frame(size, seq(Min(size, 10240), _ => 0))
  }

  // Zero bytes and nothing else.
  lemma ZeroFrameIs(p: Packet, size: u16)
    ensures FrameOf(p) == ZeroFrame(size)
       <==> p.length == size && forall i :: 0 <= i < size && i < 10240 ==> p.data[i] == 0
  {
    var n := Min(size, 10240);
    if FrameOf(p) == ZeroFrame(size) {
      assert forall i :: 0 <= i < n ==> p.data[..n][i] == 0;
    }
  }

  function Repeat(frame: Frame, n: nat): (fs: seq<Frame>)
    ensures |fs| == n && forall i :: 0 <= i < n ==> fs[i] == frame
  {
    seq(n, _ => frame)
  }

  // One packet on one output.
  method SourceOne(size: u16, outputs: seq<Link>, j: nat, fl: Freelist, ghost others: set<nat>) returns (ok: bool)
    requires AllApart(outputs, fl) && fl.Valid() && j < |outputs| && Owned(AbsAll(outputs), others, fl.Live())
    modifies outputs[j], outputs[j].packets, fl, fl.list
    ensures AllApart(outputs, fl) && fl.Valid() && Owned(AbsAll(outputs), others, fl.Live())
    ensures ok <==> |old(fl.Live())| < 511_000
    ensures ok ==> |fl.Live()| == |old(fl.Live())| + Stays(old(AbsAll(outputs))[j], 1)
    ensures ok ==> CopyOn(old(AbsAll(outputs))[j], outputs[j].Abs(), ZeroFrame(size))
    ensures ok ==> AbsAll(outputs) == old(AbsAll(outputs))[j := outputs[j].Abs()]
    ensures ok ==> Accounts(old(fl.stats), fl.stats, old(AbsAll(outputs)), AbsAll(outputs), 0, size)
  {
    hide Freelist.Valid, Freelist.Live, Link.Queue, AbsAll, FrameOf, Transmitted, Accounts, Zeroed, ZeroFrame,
         Owned;
    ghost var live := fl.Live();
    fl.LiveAtMost();
    AbsBounded(outputs);
    var p := fl.Allocate();
    if p.None? {
      return false;
    }
    OwnedMore(AbsAll(outputs), others, live, p.value.addr);
    OwnedLive(AbsAll(outputs), others, live);
    ZeroFrameIs(Zeroed(p.value, size), size);
    PutOn(Zeroed(p.value, size), outputs, j, fl, others);
    ok := true;
  }

  lemma RepeatMore(f: Fifo, g: Fifo, h: Fifo, frame: Frame, n: nat)
    requires GotCopies(f, g, Repeat(frame, n)) && CopyOn(g, h, frame)
    ensures GotCopies(f, h, Repeat(frame, n + 1))
  {
    hide GotCopies, FrameOf, Transmitted;
    var copy: Packet :| FrameOf(copy) == frame && h == Transmitted(g, copy);
    OneMore(f, g, Repeat(frame, n), copy);
    assert Repeat(frame, n) + [frame] == Repeat(frame, n + 1);
  }

  // One output.
  method SourceOn(size: u16, outputs: seq<Link>, j: nat, fl: Freelist, ghost others: set<nat>) returns (ok: bool)
    requires AllApart(outputs, fl) && fl.Valid() && j < |outputs| && Owned(AbsAll(outputs), others, fl.Live())
    modifies outputs[j], outputs[j].packets, fl, fl.list
    ensures AllApart(outputs, fl) && fl.Valid() && Owned(AbsAll(outputs), others, fl.Live())
    ensures ok <==> |old(fl.Live())| + Stays(old(AbsAll(outputs))[j], 101) < 511_000
    ensures ok ==> |fl.Live()| == |old(fl.Live())| + Stays(old(AbsAll(outputs))[j], 102)
    ensures ok ==> GotCopies(old(AbsAll(outputs))[j], AbsAll(outputs)[j], Repeat(ZeroFrame(size), 102))
    ensures ok ==> AbsAll(outputs) == old(AbsAll(outputs))[j := outputs[j].Abs()]
    ensures ok ==> Accounts(old(fl.stats), fl.stats, old(AbsAll(outputs)), AbsAll(outputs), 0, Times(102, size))
  {
    hide Freelist.Valid, Freelist.Live, Link.Queue, AbsAll, Accounts, ZeroFrame, Repeat, GotCopies, CopyOn, Owned;
    ghost var before, stats, out := AbsAll(outputs), fl.stats, |fl.Live()|;
    AccountsNone(stats, before);
    AbsBounded(outputs);
    RepeatNone(before[j], ZeroFrame(size));
    for i := 0 to 102
      invariant AllApart(outputs, fl) && fl.Valid() && Owned(AbsAll(outputs), others, fl.Live())
      invariant GotCopies(before[j], AbsAll(outputs)[j], Repeat(ZeroFrame(size), i))
      invariant AbsAll(outputs) == before[j := outputs[j].Abs()]
      invariant Accounts(stats, fl.stats, before, AbsAll(outputs), 0, Times(i, size))
      invariant |fl.Live()| == out + Stays(before[j], i)
      invariant i > 0 ==> out + Stays(before[j], i - 1) < 511_000
    {
      StaysMore(before[j], AbsAll(outputs)[j], Repeat(ZeroFrame(size), i), 1);
      ghost var middle, now := AbsAll(outputs), fl.stats;
      ok := SourceOne(size, outputs, j, fl, others);
      if !ok {
        return;
      }
      AccountsTimes(stats, now, fl.stats, before, middle, AbsAll(outputs), i, size);
      RepeatMore(before[j], middle[j], AbsAll(outputs)[j], ZeroFrame(size), i);
    }
    ok := true;
  }

  lemma RepeatNone(f: Fifo, frame: Frame)
    ensures GotCopies(f, f, Repeat(frame, 0))
  {
    NoCopies(f);
  }

  // The first `j` outputs have their packets.
  ghost predicate SourcedSome(a: TeeState, b: TeeState, j: nat, others: set<nat>, size: u16) {
    && j <= |a.outputs| == |b.outputs| && Bounded(a.outputs) && Owned(b.outputs, others, b.live)
    && (forall i :: 0 <= i < j ==> GotCopies(a.outputs[i], b.outputs[i], Repeat(ZeroFrame(size), 102)))
    && (forall i :: j <= i < |b.outputs| ==> b.outputs[i] == a.outputs[i])
    && Accounts(a.stats, b.stats, a.outputs, b.outputs, 0, Times(j, Times(102, size)))
    && Copying(|a.live|, a.outputs, 101, j, |b.live|)
  }

  lemma NoneSourced(a: TeeState, others: set<nat>, size: u16)
    requires Bounded(a.outputs) && Owned(a.outputs, others, a.live)
    ensures SourcedSome(a, a, 0, others, size)
  {
    hide Owned, Accounts;
    AccountsNone(a.stats, a.outputs);
  }

  lemma BeforeSourced(a: TeeState, b: TeeState, j: nat, others: set<nat>, size: u16)
    requires SourcedSome(a, b, j, others, size) && j < |a.outputs|
    ensures |b.outputs| == |a.outputs| && Owned(b.outputs, others, b.live)
    ensures |b.live| + Stays(b.outputs[j], 101) >= 511_000 ==> !CanCopy(|a.live|, 0, a.outputs, 101)
  {
    hide GotCopies, Owned, Accounts, Copying, CanCopy, Stays, Bounded;
    NextCopied(|a.live|, a.outputs, 101, j, |b.live|);
  }

  lemma OneSourced(a: TeeState, b: TeeState, c: TeeState, j: nat, others: set<nat>, size: u16)
    requires SourcedSome(a, b, j, others, size) && j < |b.outputs| == |c.outputs|
    requires |b.live| + Stays(b.outputs[j], 101) < 511_000
    requires Owned(c.outputs, others, c.live)
    requires Accounts(b.stats, c.stats, b.outputs, c.outputs, 0, Times(102, size))
    requires GotCopies(b.outputs[j], c.outputs[j], Repeat(ZeroFrame(size), 102))
    requires c.outputs == b.outputs[j := c.outputs[j]] && |c.live| == |b.live| + Stays(b.outputs[j], 102)
    ensures SourcedSome(a, c, j + 1, others, size)
  {
    hide GotCopies, Owned, Accounts, Copying, CanCopy, Stays, Bounded, Times;
    AccountsTimes(a.stats, b.stats, c.stats, a.outputs, b.outputs, c.outputs, j, Times(102, size));
    NextCopied(|a.live|, a.outputs, 101, j, |b.live|);
  }

  lemma AllSourced(a: TeeState, b: TeeState, others: set<nat>, size: u16)
    requires SourcedSome(a, b, |a.outputs|, others, size)
    ensures Owned(b.outputs, others, b.live)
    ensures AllGotCopies(a.outputs, b.outputs, Repeat(ZeroFrame(size), 102))
    ensures Accounts(a.stats, b.stats, a.outputs, b.outputs, 0, Times(|a.outputs|, Times(102, size)))
    ensures CanCopy(|a.live|, 0, a.outputs, 101) && |b.live| == |a.live| + Fitting(a.outputs, 102)
  {
    hide GotCopies, Owned, Accounts, Copying, CanCopy, Bounded, Times;
    AllCopied(|a.live|, a.outputs, 101, |b.live|);
  }

  // One output, seen from the start of the loop.
  method SourceNext(size: u16, outputs: seq<Link>, j: nat, fl: Freelist, ghost from: TeeState, ghost others: set<nat>)
    returns (ok: bool)
    requires AllApart(outputs, fl) && fl.Valid() && j < |outputs| == |from.outputs|
    requires SourcedSome(from, TeeState(AbsAll(outputs), fl.Live(), fl.stats), j, others, size)
    modifies outputs[j], outputs[j].packets, fl, fl.list
    ensures AllApart(outputs, fl) && fl.Valid() && Owned(AbsAll(outputs), others, fl.Live())
    ensures !ok ==> !CanCopy(|from.live|, 0, from.outputs, 101)
    ensures ok ==> SourcedSome(from, TeeState(AbsAll(outputs), fl.Live(), fl.stats), j + 1, others, size)
  {
    hide Freelist.Valid, Freelist.Live, Link.Queue, AbsAll, Accounts, GotCopies, Owned, CanCopy, Stays, SourcedSome,
         Repeat, ZeroFrame;
    ghost var now := TeeState(AbsAll(outputs), fl.Live(), fl.stats);
    BeforeSourced(from, now, j, others, size);
    ok := SourceOn(size, outputs, j, fl, others);
    if ok {
      OneSourced(from, now, TeeState(AbsAll(outputs), fl.Live(), fl.stats), j, others, size);
    }
  }

  // The source puts PULL_NPACKETS = 1023 / 10 = 102 packets of zeros on every output.
  method Source(size: u16, outputs: seq<Link>, fl: Freelist, ghost others: set<nat>) returns (ok: bool)
    requires AllApart(outputs, fl) && fl.Valid() && Owned(AbsAll(outputs), others, fl.Live())
    modifies outputs, set l | l in outputs :: l.packets, fl, fl.list
    ensures AllApart(outputs, fl) && fl.Valid() && Owned(AbsAll(outputs), others, fl.Live())
    // It fails exactly when too many packets are out for the last one it makes. No
    // packet is lost.
    ensures ok <==> CanCopy(|old(fl.Live())|, 0, old(AbsAll(outputs)), 101)
    ensures ok ==> |fl.Live()| == |old(fl.Live())| + Fitting(old(AbsAll(outputs)), 102)
    ensures ok ==> AllGotCopies(old(AbsAll(outputs)), AbsAll(outputs), Repeat(ZeroFrame(size), 102))
    ensures ok ==> Accounts(old(fl.stats), fl.stats, old(AbsAll(outputs)), AbsAll(outputs),
                            0, Times(|outputs|, Times(102, size)))
  {
    hide Freelist.Valid, Freelist.Live, Link.Queue, AbsAll, Accounts, Owned, CanCopy, Fitting, Bounded, SourcedSome,
         AllApart, AllGotCopies, Repeat, ZeroFrame, Times;
    ghost var from := TeeState(AbsAll(outputs), fl.Live(), fl.stats);
    AbsBounded(outputs);
    NoneSourced(from, others, size);
    for j := 0 to |outputs|
      invariant AllApart(outputs, fl) && fl.Valid()
      invariant SourcedSome(from, TeeState(AbsAll(outputs), fl.Live(), fl.stats), j, others, size)
    {
      assert outputs[j] in outputs;
      ok := SourceNext(size, outputs, j, fl, from, others);
      if !ok {
        return;
      }
    }
    AllSourced(from, TeeState(AbsAll(outputs), fl.Live(), fl.stats), others, size);
    ok := true;
  }
}
