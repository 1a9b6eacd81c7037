// Runs of the push order in which every successor set is iterated the same way
// each time, as a hash set that nothing is put into or taken from may be. They
// are among the runs of `BreatheOrder`, where each iteration takes an order of
// its own, so what holds of all of those holds of them.
module BreatheFixed {
  import opened BreatheOrder
  import opened BreatheQuiet
  import opened BreatheRuns
  import opened BreatheSelfLinks

  // The iterations of the successor sets that are left.
  function OrdersLeft(net: Net, orders: Orders, exhale: seq<Name>): Orders {
    map x | x in orders && x !in net.pull && x !in exhale :: orders[x]
  }

  function FirstRound(net: Net, orders: Orders, inhale: seq<Name>): Round {
    Round([], Collect(inhale, orders, net.push, []))
  }

  function RoundAfter(net: Net, orders: Orders, r: Round): Round {
    var left := OrdersLeft(net, orders, r.exhale);
    var now := Sort(Kept(r.cands, left));
    Round(r.exhale + now, Collect(now, left, net.push, r.exhale + now))
  }

  // The rounds that these iterations lead to, as far as they are gone through.
  ghost predicate FixedRounds(net: Net, orders: Orders, t: seq<Round>) {
    && Enumerates(orders, net.succ) && t != [] && t[0] == FirstRound(net, orders, Listing(net.pull))
    && (forall i :: 0 <= i < |t| - 1 ==> t[i].cands != [] && t[i + 1] == RoundAfter(net, orders, t[i]))
  }

  ghost predicate FixedRun(net: Net, orders: Orders, t: seq<Round>)
    ensures FixedRun(net, orders, t) ==> t != []
  {
    FixedRounds(net, orders, t) && Final(t).cands == []
  }

  lemma LeftEnumerated(net: Net, orders: Orders, exhale: seq<Name>)
    requires Enumerates(orders, net.succ)
    ensures Enumerates(OrdersLeft(net, orders, exhale), Left(net, exhale))
  {
    hide Distinct, Names;
  }

  lemma AfterIsNext(net: Net, orders: Orders, r: Round)
    requires Enumerates(orders, net.succ) && r.cands != []
    ensures NextWith(net, r, RoundAfter(net, orders, r), OrdersLeft(net, orders, r.exhale))
  {
    hide Enumerates, Discovered, Kept, Sort, OrdersLeft, Left;
    var left := OrdersLeft(net, orders, r.exhale);
    LeftEnumerated(net, orders, r.exhale);
    CollectedNext(net, r.exhale, Sort(Kept(r.cands, left)), left);
  }

  // Such a run is a run.
  lemma FixedIsRun(net: Net, orders: Orders, t: seq<Round>)
    requires FixedRounds(net, orders, t)
    ensures Rounds(net, t)
    ensures FixedRun(net, orders, t) ==> Complete(net, t)
  {
    hide Enumerates, Initial, NextWith, FirstRound, RoundAfter;
    FirstIsInitial(net, orders);
    forall i | 0 <= i < |t| - 1
      ensures NextRound(net, t[i], t[i + 1])
    {
      AfterIsNext(net, orders, t[i]);
    }
  }

  lemma FirstIsInitial(net: Net, orders: Orders)
    requires Enumerates(orders, net.succ)
    ensures var r := FirstRound(net, orders, Listing(net.pull)); r.exhale == [] && Initial(net, r.cands)
  {
    hide Enumerates, Initial;
    CollectedInitial(net, orders);
  }

  // Any iterations lead to the end of some run.
  lemma {:induction false} FixedOn(net: Net, orders: Orders, t: seq<Round>) returns (u: seq<Round>)
    requires FixedRounds(net, orders, t)
    ensures FixedRun(net, orders, u) && t <= u
    decreases |net.push| - |Final(t).exhale|
  {
    hide Enumerates, FirstRound, RoundAfter, Rounds, NextWith, RoundInv;
    u := t;
    if Final(t).cands != [] {
      var r := RoundAfter(net, orders, Final(t));
      FixedIsRun(net, orders, t);
      AfterIsNext(net, orders, Final(t));
      var v := Extended(net, t, r, OrdersLeft(net, orders, Final(t).exhale));
      u := FixedOn(net, orders, v);
    }
  }

  lemma {:induction false} CollectSame(sources: seq<Name>, o: Orders, p: Orders, push: set<Name>, out: seq<Name>)
    requires forall x :: x in sources ==> (x in o <==> x in p) && (x in o ==> o[x] == p[x])
    ensures Collect(sources, o, push, out) == Collect(sources, p, push, out)
  {
    if sources != [] {
      CollectSame(sources[..|sources| - 1], o, p, push, out);
    }
  }

  // The sets of the pull apps are iterated once, before all others, so any two
  // choices for them and for the others go together.
  lemma Mixed(net: Net, gather: Orders, pass: Orders) returns (orders: Orders)
    requires Enumerates(gather, net.succ) && Enumerates(pass, Left(net, []))
    ensures Enumerates(orders, net.succ) && OrdersLeft(net, orders, []) == pass
    ensures FirstRound(net, orders, Listing(net.pull)) == FirstRound(net, gather, Listing(net.pull))
  {
    hide Collect, Enumerates, OrdersLeft;
    orders := map x | x in net.succ :: MixedAt(net, gather, pass, x);
    MixedHolds(net, gather, pass, orders);
    NoNames(Listing(net.pull));
    CollectSame(Listing(net.pull), orders, gather, net.push, []);
  }

  function MixedAt(net: Net, gather: Orders, pass: Orders, x: Name): seq<Name> {
    if x in net.pull && x in gather then gather[x] else if x in pass then pass[x] else []
  }

  lemma MixedHolds(net: Net, gather: Orders, pass: Orders, orders: Orders)
    requires Enumerates(gather, net.succ) && Enumerates(pass, Left(net, []))
    requires orders == map x | x in net.succ :: MixedAt(net, gather, pass, x)
    ensures Enumerates(orders, net.succ) && OrdersLeft(net, orders, []) == pass
    ensures forall x :: x in net.pull ==> (x in orders <==> x in gather) && (x in orders ==> orders[x] == gather[x])
  {
    hide Distinct, Names;
  }

  // Some run with one iteration order for each set never exhales `x`.
  ghost predicate CanLoseFixed(net: Net, x: Name) {
    exists orders, u :: FixedRun(net, orders, u) && x !in Final(u).exhale
  }

  // For a self-linked push app that a pull app feeds, and of what is left only
  // itself, the condition is the same as with an order of its own for each
  // iteration: it can be lost exactly if it is not spared among the first
  // candidates.
  lemma FirstLostExactly(net: Net, t: seq<Round>, x: Name)
    requires Rounds(net, t) && |t| == 1 && x in t[0].cands && Linked(net, x, x) && x !in net.pull
    requires Unfed(net, t[0], x)
    ensures CanLoseFixed(net, x) <==> !SparedIn(net, t, x)
  {
    hide Unfed, SparedIn, FixedRun, Rounds, Loses;
    if SparedIn(net, t, x) {
      forall orders, u | FixedRun(net, orders, u)
        ensures x in Final(u).exhale
      {
        FixedLoses(net, t, x, orders, u);
        SparedNotLost(net, t, x, u);
      }
    } else {
      var orders, u := FixedLosingRun(net, t, x);
    }
  }

  // In any later round the condition still is enough to keep `x`. There the orders
  // of earlier rounds bear on it too, so it need not be necessary.
  lemma SparedKept(net: Net, orders: Orders, u: seq<Round>, n: nat, x: Name)
    requires FixedRun(net, orders, u) && n < |u| && x in u[n].cands && SparedIn(net, u[..n + 1], x)
    ensures x in Final(u).exhale
  {
    hide FixedRun, SparedIn, Rounds, NextRound;
    FixedParts(net, orders, u);
    FixedIsRun(net, orders, u);
    PrefixRounds(net, u, n);
    assert u[..n + 1][..n] == u[..n];
    SparedNotLost(net, u[..n + 1], x, u);
  }

  lemma FixedParts(net: Net, orders: Orders, t: seq<Round>)
    requires FixedRun(net, orders, t)
    ensures FixedRounds(net, orders, t)
  {
  }

  lemma FixedLoses(net: Net, t: seq<Round>, x: Name, orders: Orders, u: seq<Round>)
    requires Rounds(net, t) && |t| == 1 && FixedRun(net, orders, u)
    ensures x !in Final(u).exhale ==> Loses(net, t, x, u)
  {
    hide Enumerates, FirstRound, RoundAfter, NextRound, Collected;
    FixedIsRun(net, orders, u);
    NoNames(t[0].cands);
    NoNames(u[0].cands);
    assert Names(t[0].cands) == Names(u[0].cands);
  }

  // An order of the first candidates and a pass over it that drop `x`.
  lemma CanDropFirst(net: Net, t: seq<Round>, x: Name) returns (gather: Orders, pass: Orders)
    requires Rounds(net, t) && |t| == 1 && x in t[0].cands && Linked(net, x, x) && x !in net.pull
    requires Unfed(net, t[0], x) && !SparedIn(net, t, x)
    ensures Enumerates(gather, net.succ) && Enumerates(pass, Left(net, []))
    ensures var a := FirstRound(net, gather, Listing(net.pull)).cands;
            Names(a) == Names(t[0].cands) && x !in Kept(a, pass)
  {
    hide Spared, Kept, Collect, HasUpstream, Fed, FedBy, Enumerates, Initial;
    RoundsInv(net, t);
    RoundCollected(net, t, 0);
    NoneUpstream(net, t[0], x);
    var a;
    a, pass := CanDrop(Listing(net.pull), net.succ, net.push, [], Left(net, []), t[0].cands, x);
    gather :| Enumerates(gather, net.succ) && a == Collect(Listing(net.pull), gather, net.push, []);
    CollectedSame(Listing(net.pull), net.succ, net.push, [], a);
    CollectedSame(Listing(net.pull), net.succ, net.push, [], t[0].cands);
  }

  lemma SecondRound(net: Net, orders: Orders, u: seq<Round>)
    requires FixedRun(net, orders, u) && u[0].cands != []
    ensures |u| > 1 && u[1].exhale == u[0].exhale + Sort(Kept(u[0].cands, OrdersLeft(net, orders, u[0].exhale)))
  {
    hide Enumerates, FirstRound, Kept, Sort;
    assert u[1] == RoundAfter(net, orders, u[0]);
  }

  lemma FixedLosingRun(net: Net, t: seq<Round>, x: Name) returns (orders: Orders, u: seq<Round>)
    requires Rounds(net, t) && |t| == 1 && x in t[0].cands && Linked(net, x, x) && x !in net.pull
    requires Unfed(net, t[0], x) && !SparedIn(net, t, x)
    ensures FixedRun(net, orders, u) && x !in Final(u).exhale
  {
    hide Kept, NextRound, Sort, Unfed, Collect, Enumerates, Initial, OrdersLeft, Left, SparedIn;
    var gather, pass := CanDropFirst(net, t, x);
    orders := Mixed(net, gather, pass);
    var v := [FirstRound(net, orders, Listing(net.pull))];
    u := FixedOn(net, orders, v);
    FixedIsRun(net, orders, v);
    FixedIsRun(net, orders, u);
    NoNames(v[0].cands);
    NoNames(t[0].cands);
    SecondRound(net, orders, u);
    LosesIt(net, t, x, v, u, pass);
  }
}
