// The loops of `compute_breathe_order` in src/engine.rs. Every iteration over a
// hash table takes an order of its own choosing.
module BreatheLoop {
  import opened BreatheOrder

  // One iteration over a hash set, in any order.
  method Iterate(s: set<Name>) returns (order: seq<Name>)
    ensures Distinct(order) && Names(order) == s
  {
    order := [];
    var rest := s;
    while rest != {}
      invariant rest <= s && Distinct(order) && Names(order) == s - rest
      decreases rest
    {
      var x :| x in rest;
      NoNames(order);
      NamesPush(order, x);
      order := order + [x];
      rest := rest - {x};
    }
  }

  method IterateAll(succ: map<Name, set<Name>>) returns (orders: Orders)
    ensures Enumerates(orders, succ)
  {
    orders := map[];
    var rest := succ.Keys;
    while rest != {}
      invariant rest <= succ.Keys && orders.Keys == succ.Keys - rest
      invariant forall x :: x in orders ==> Distinct(orders[x]) && Names(orders[x]) == succ[x]
      decreases rest
    {
      var x :| x in rest;
      var order := Iterate(succ[x]);
      orders := orders[x := order];
      rest := rest - {x};
    }
  }

  // Delay candidates after their inputs, keeping at least one.
  method DelayPass(cands: seq<Name>, successors: map<Name, set<Name>>)
    returns (dependents: seq<Name>, ghost orders: Orders)
    ensures Enumerates(orders, successors) && dependents == Kept(cands, orders)
    ensures Distinct(cands) && cands != [] ==> dependents != [] && Distinct(dependents)
    ensures forall x :: x in dependents ==> x in cands
  {
    var chosen := IterateAll(successors);
    orders := chosen;
    dependents := cands;
    var selected: set<Name> := {};
    for i := 0 to |cands|
      invariant DelayAll(cands[i..], chosen, Delay(dependents, selected))
             == DelayAll(cands, chosen, Delay(cands, {}))
    {
      var name := cands[i];
      assert cands[i..][0] == name && cands[i..][1..] == cands[i + 1..];
      if name in successors {
        var targets := chosen[name];
        ghost var st := Delay(dependents, selected);
        for j := 0 to |targets|
          invariant DelayBy(name, targets[j..], Delay(dependents, selected)) == DelayBy(name, targets, st)
        {
          var successor := targets[j];
          assert targets[j..][0] == successor && targets[j..][1..] == targets[j + 1..];
          if successor !in selected && successor in dependents && |dependents| > 1 {
            selected := selected + {name};
            dependents := Without(dependents, successor);
          }
        }
      }
    }
    AllOnlyShrinks(cands, orders, Delay(cands, {}));
    if Distinct(cands) && cands != [] {
      KeptSome(cands, orders);
    }
  }

  // Appends the push successors of one app that are not exhaled or listed yet.
  method AddSuccessors(order: seq<Name>, push: set<Name>, exhale: seq<Name>, listed: seq<Name>)
    returns (dependents: seq<Name>)
    ensures dependents == AddFrom(listed, order, push, exhale)
  {
    dependents := listed;
    for j := 0 to |order|
      invariant dependents == AddFrom(listed, order[..j], push, exhale)
    {
      var successor := order[j];
      assert order[..j + 1][..j] == order[..j];
      if successor in push && successor !in exhale && successor !in dependents {
        dependents := dependents + [successor];
      }
    }
    assert order[..|order|] == order;
  }

  // What a list of apps brings in, app by app.
  method CollectFrom(sources: seq<Name>, successors: map<Name, set<Name>>, push: set<Name>, exhale: seq<Name>)
    returns (dependents: seq<Name>, ghost orders: Orders)
    ensures Enumerates(orders, successors) && dependents == Collect(sources, orders, push, exhale)
    ensures Distinct(dependents)
    ensures forall y :: y in dependents <==>
              y in push && y !in exhale && exists x :: x in sources && Brings(x, y, successors)
  {
    var chosen := IterateAll(successors);
    orders := chosen;
    dependents := [];
    for i := 0 to |sources|
      invariant dependents == Collect(sources[..i], chosen, push, exhale)
    {
      var name := sources[i];
      assert sources[..i + 1][..i] == sources[..i];
      if name in successors {
        dependents := AddSuccessors(chosen[name], push, exhale, dependents);
      }
    }
    assert sources[..|sources|] == sources;
    CollectHolds(sources, chosen, successors, push, exhale);
  }

  // The push apps next to the pull apps.
  method InitialDependents(net: Net, inhale: seq<Name>) returns (dependents: seq<Name>)
    requires Sorted(inhale) && Distinct(inhale) && Names(inhale) == net.pull
    ensures Initial(net, dependents)
  {
    ghost var orders;
    dependents, orders := CollectFrom(inhale, net.succ, net.push, []);
    SortedUnique(inhale, Listing(net.pull));
    CollectedInitial(net, orders);
  }

  // The candidates of the next round.
  method Discover(net: Net, successors: map<Name, set<Name>>, before: seq<Name>, now: seq<Name>)
    returns (dependents: seq<Name>)
    requires successors == Left(net, before)
    ensures Discovered(net, before, now, dependents)
  {
    ghost var orders;
    dependents, orders := CollectFrom(now, successors, net.push, before + now);
    CollectedNext(net, before, now, orders);
  }

  lemma LeftShrinks(net: Net, before: seq<Name>, now: seq<Name>)
    ensures Left(net, before) - Names(now) == Left(net, before + now)
    ensures net.succ - net.pull == Left(net, [])
  {
    NoNames(now);
  }

  // The whole computation after the pull apps are known: a run of rounds to the
  // end. It ends because every round exhales at least one push app.
  method PushOrder(net: Net, inhale: seq<Name>) returns (exhale: seq<Name>, ghost t: seq<Round>)
    requires Sorted(inhale) && Distinct(inhale) && Names(inhale) == net.pull
    ensures Complete(net, t) && Final(t).exhale == exhale
    ensures Exhaled(net, exhale)
  {
    hide Discovered, Initial, RoundInv, NextRound, Kept, Enumerates, Left, Exhaled;
    var dependents := InitialDependents(net, inhale);
    var successors := net.succ - net.pull;
    LeftShrinks(net, [], []);
    exhale := [];
    t := [Round([], dependents)];
    while |dependents| > 0
      invariant Rounds(net, t) && Final(t) == Round(exhale, dependents)
      invariant successors == Left(net, exhale)
      invariant |exhale| <= |net.push|
      decreases |net.push| - |exhale|
    {
      ghost var orders;
      dependents, orders := DelayPass(dependents, successors);
      var exhaled := Sort(dependents);
      dependents := Discover(net, successors, exhale, exhaled);
      LeftShrinks(net, exhale, exhaled);
      successors := successors - Names(exhaled);
      t := Extended(net, t, Round(exhale + exhaled, dependents), orders);
      exhale := exhale + exhaled;
    }
    RunExhales(net, t);
  }
}
