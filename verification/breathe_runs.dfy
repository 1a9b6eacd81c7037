// Runs of the push order, round by round: where the candidates of a round come
// from, and how one run branches off another.
module BreatheRuns {
  import opened BreatheOrder

  lemma EndsThere(net: Net, t: seq<Round>, i: nat)
    requires Rounds(net, t) && i < |t| && t[i].cands == []
    ensures i == |t| - 1
  {
    assert i < |t| - 1 ==> NextRound(net, t[i], t[i + 1]);
  }

  lemma PrefixRounds(net: Net, t: seq<Round>, i: nat)
    requires Rounds(net, t) && i < |t|
    ensures Rounds(net, t[..i + 1]) && Final(t[..i + 1]) == t[i]
  {
    hide NextRound, Initial;
    var p := t[..i + 1];
    assert forall j :: 0 <= j < i ==> NextRound(net, t[j], t[j + 1]);
    assert forall j :: 0 <= j < i ==> NextRound(net, p[j], p[j + 1]);
  }

  lemma PrefixInv(net: Net, t: seq<Round>, i: nat)
    requires Rounds(net, t) && i < |t|
    ensures RoundInv(net, t[i])
  {
    hide Rounds, RoundInv;
    PrefixRounds(net, t, i);
    RoundsInv(net, t[..i + 1]);
  }

  // What one round exhales: the candidates kept, sorted.
  lemma RoundStep(net: Net, t: seq<Round>, i: nat) returns (orders: Orders)
    requires Rounds(net, t) && i < |t| - 1
    ensures NextWith(net, t[i], t[i + 1], orders) && RoundInv(net, t[i]) && RoundInv(net, t[i + 1])
    ensures t[i].exhale <= t[i + 1].exhale
    ensures Names(t[i + 1].exhale[|t[i].exhale|..]) == Names(Kept(t[i].cands, orders))
    ensures Names(Kept(t[i].cands, orders)) <= Names(t[i].cands)
  {
    hide RoundInv, Kept;
    assert NextRound(net, t[i], t[i + 1]);
    orders :| NextWith(net, t[i], t[i + 1], orders);
    PrefixInv(net, t, i);
    PrefixInv(net, t, i + 1);
    InvDistinct(net, t[i]);
    KeptSome(t[i].cands, orders);
    SortKeeps(Kept(t[i].cands, orders));
  }

  lemma InvDistinct(net: Net, r: Round)
    requires RoundInv(net, r)
    ensures Distinct(r.cands) && Distinct(r.exhale) && forall x :: x in r.cands ==> x !in r.exhale && x in net.push
  {
  }

  lemma {:induction false} ExhaleGrows(net: Net, t: seq<Round>, i: nat, j: nat)
    requires Rounds(net, t) && i <= j < |t|
    ensures t[i].exhale <= t[j].exhale
    decreases j
  {
    hide Rounds, NextWith;
    if i < j {
      ExhaleGrows(net, t, i, j - 1);
      var _ := RoundStep(net, t, j - 1);
    }
  }

  // ---- Where the candidates of a round come from ----

  // The apps that bring in the candidates of round `i`, in order, and their
  // successors.
  ghost function SourcesAt(net: Net, t: seq<Round>, i: nat): seq<Name>
    requires i < |t|
  {
    if i == 0 then Listing(net.pull)
    else if |t[i - 1].exhale| <= |t[i].exhale| then t[i].exhale[|t[i - 1].exhale|..]
    else []
  }

  ghost function FeedAt(net: Net, t: seq<Round>, i: nat): map<Name, set<Name>>
    requires i < |t|
  {
    if i == 0 then net.succ else Left(net, t[i - 1].exhale)
  }

  // The lists in which the candidates of round `i` can come.
  ghost predicate CollectedAt(net: Net, t: seq<Round>, i: nat, cands: seq<Name>)
    requires i < |t|
  {
    Collected(SourcesAt(net, t, i), FeedAt(net, t, i), net.push, t[i].exhale, cands)
  }

  lemma RoundCollected(net: Net, t: seq<Round>, i: nat)
    requires Rounds(net, t) && i < |t|
    ensures CollectedAt(net, t, i, t[i].cands) && Distinct(SourcesAt(net, t, i))
  {
    hide Kept, Sort, Collected, RoundInv, Left;
    if i > 0 {
      var orders := RoundStep(net, t, i - 1);
      InvDistinct(net, t[i]);
      assert t[i].exhale == t[i - 1].exhale + Sort(Kept(t[i - 1].cands, orders));
      assert SourcesAt(net, t, i) == Sort(Kept(t[i - 1].cands, orders));
    }
  }

  // All those lists hold the same candidates, each once.
  lemma CollectedSame(sources: seq<Name>, succ: map<Name, set<Name>>, push: set<Name>, out: seq<Name>, a: seq<Name>)
    requires Collected(sources, succ, push, out, a)
    ensures Distinct(a)
    ensures forall y :: y in a <==> y in push && y !in out && exists x :: x in sources && Brings(x, y, succ)
  {
    var orders :| Enumerates(orders, succ) && a == Collect(sources, orders, push, out);
    CollectHolds(sources, orders, succ, push, out);
  }

  // A run can come to any of them instead.
  lemma Recollected(net: Net, t: seq<Round>, i: nat, a: seq<Name>) returns (u: seq<Round>)
    requires Rounds(net, t) && i < |t| && CollectedAt(net, t, i, a)
    ensures Rounds(net, u) && u == t[..i] + [Round(t[i].exhale, a)]
    ensures Names(a) == Names(t[i].cands)
  {
    u := t[..i] + [Round(t[i].exhale, a)];
    RoundCollected(net, t, i);
    CollectedSame(SourcesAt(net, t, i), FeedAt(net, t, i), net.push, t[i].exhale, a);
    CollectedSame(SourcesAt(net, t, i), FeedAt(net, t, i), net.push, t[i].exhale, t[i].cands);
    assert forall y :: y in a <==> y in t[i].cands;
    if i > 0 {
      RecollectedStep(net, t, i, a);
      assert u[i - 1] == t[i - 1] && u[i] == Round(t[i].exhale, a);
    }
    forall j | 0 <= j < i
      ensures NextRound(net, u[j], u[j + 1])
    {
      assert NextRound(net, t[j], t[j + 1]);
    }
  }

  lemma RecollectedStep(net: Net, t: seq<Round>, i: nat, a: seq<Name>)
    requires Rounds(net, t) && 0 < i < |t| && CollectedAt(net, t, i, a)
    requires Distinct(a) && forall y :: y in a <==> y in t[i].cands
    ensures NextRound(net, t[i - 1], Round(t[i].exhale, a))
  {
    hide Kept, Sort, Collected, RoundInv, Left;
    var orders := RoundStep(net, t, i - 1);
    var now := Sort(Kept(t[i - 1].cands, orders));
    assert t[i].exhale == t[i - 1].exhale + now;
    assert SourcesAt(net, t, i) == now;
    assert NextWith(net, t[i - 1], Round(t[i].exhale, a), orders);
  }

  // From a list of candidates a run can take any delay pass over it.
  lemma Branched(net: Net, t: seq<Round>, orders: Orders) returns (u: seq<Round>)
    requires Rounds(net, t) && Final(t).cands != [] && Enumerates(orders, Left(net, Final(t).exhale))
    ensures Complete(net, u) && t <= u && |t| < |u|
    ensures u[|t|].exhale == Final(t).exhale + Sort(Kept(Final(t).cands, orders))
  {
    hide Kept, Sort, Left, Discovered;
    var before := Final(t).exhale;
    var now := Sort(Kept(Final(t).cands, orders));
    var gather := OrdersFor(Left(net, before));
    CollectedNext(net, before, now, gather);
    var r := Round(before + now, Collect(now, gather, net.push, before + now));
    u := Extended(net, t, r, orders);
    u := RunsOn(net, u);
  }
}
