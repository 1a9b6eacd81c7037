// When the push order is what the comment in front of `compute_breathe_order` in
// src/engine.rs says: independent of iteration order, and in the direction of
// the links.
module BreatheQuiet {
  import opened BreatheOrder
  import opened BreatheRuns

  // ---- A pass without middle candidates ----

  ghost predicate Upstream(x: Name, y: Name, cands: set<Name>, succ: map<Name, set<Name>>) {
    x in cands && y in cands && x != y && x in succ && y in succ[x]
  }

  ghost predicate HasUpstream(y: Name, cands: set<Name>, succ: map<Name, set<Name>>) {
    exists x :: Upstream(x, y, cands, succ)
  }

  ghost predicate HasDownstream(x: Name, cands: set<Name>, succ: map<Name, set<Name>>) {
    exists y :: Upstream(x, y, cands, succ)
  }

  // No candidate is both upstream and downstream of other candidates.
  ghost predicate NoMiddle(cands: set<Name>, succ: map<Name, set<Name>>) {
    forall y :: y in cands ==> !(HasUpstream(y, cands, succ) && HasDownstream(y, cands, succ))
  }

  // Half-way through the pass without middle candidates: only upstream ones are
  // selected, only downstream ones are gone, and all those met so far are gone.
  ghost predicate Sides(cands: set<Name>, succ: map<Name, set<Name>>, st: Delay) {
    && (forall x :: x in st.selected ==> HasDownstream(x, cands, succ))
    && (forall y :: y in cands && y !in st.kept ==> HasUpstream(y, cands, succ))
  }

  lemma DelayOneSides(cands: set<Name>, succ: map<Name, set<Name>>, name: Name, target: Name, st: Delay)
    requires NoMiddle(cands, succ) && NoSelf(cands, succ) && Sides(cands, succ, st)
    requires DelayInv(cands, st) && name in cands && name in succ && target in succ[name]
    ensures Sides(cands, succ, DelayOne(name, target, st))
    ensures target in cands ==> target !in DelayOne(name, target, st).kept
  {
    if target in cands {
      assert Upstream(name, target, cands, succ);
      assert name in st.kept;
      TwoMembers(st.kept, name, target);
    }
  }

  lemma {:induction false} DelayByExact(cands: set<Name>, succ: map<Name, set<Name>>, name: Name,
                                        targets: seq<Name>, st: Delay)
    requires NoMiddle(cands, succ) && NoSelf(cands, succ) && Sides(cands, succ, st)
    requires DelayInv(cands, st) && name in cands && name in succ && SubsetOf(targets, succ[name])
    ensures Sides(cands, succ, DelayBy(name, targets, st)) && DelayInv(cands, DelayBy(name, targets, st))
    ensures forall y :: y in DelayBy(name, targets, st).kept ==> y !in targets && y in st.kept
  {
    hide NoMiddle, NoSelf, Sides, DelayInv;
    if targets != [] {
      var st' := DelayOne(name, targets[0], st);
      assert SubsetOf(st'.kept, cands) by {
        DelayOneKeeps(cands, name, targets[0], st);
        assert DelayInv(cands, st');
        InCands(cands, st');
      }
      DelayOneKeeps(cands, name, targets[0], st);
      DelayOneSides(cands, succ, name, targets[0], st);
      DelayByExact(cands, succ, name, targets[1..], st');
      assert forall y :: y in targets ==> y == targets[0] || y in targets[1..];
    }
  }

  lemma InCands(cands: set<Name>, st: Delay)
    requires DelayInv(cands, st)
    ensures SubsetOf(st.kept, cands)
  {
  }

  lemma {:induction false} DelayAllExact(cands: set<Name>, succ: map<Name, set<Name>>,
                                         names: seq<Name>, orders: Orders, st: Delay)
    requires NoMiddle(cands, succ) && NoSelf(cands, succ) && Sides(cands, succ, st)
    requires DelayInv(cands, st) && SubsetOf(names, cands) && Enumerates(orders, succ)
    ensures Sides(cands, succ, DelayAll(names, orders, st))
    ensures forall y :: y in DelayAll(names, orders, st).kept ==> y in st.kept
    ensures forall x, y :: x in names && Upstream(x, y, cands, succ) ==> y !in DelayAll(names, orders, st).kept
  {
    hide NoMiddle, NoSelf, Sides, DelayInv;
    if names != [] {
      var x := names[0];
      assert x in cands;
      var st' := if x in orders then DelayBy(x, orders[x], st) else st;
      if x in orders {
        assert forall y :: y in orders[x] <==> y in Names(orders[x]);
        DelayByExact(cands, succ, x, orders[x], st);
      }
      DelayAllExact(cands, succ, names[1..], orders, st');
      assert forall z :: z in names ==> z == x || z in names[1..];
    }
  }

  // Without middle candidates the pass keeps exactly those that no other
  // candidate is upstream of, whatever the iteration order.
  lemma KeptExact(cands: seq<Name>, succ: map<Name, set<Name>>, orders: Orders)
    requires Distinct(cands) && cands != [] && Enumerates(orders, succ)
    requires NoSelf(Names(cands), succ) && NoMiddle(Names(cands), succ)
    ensures Names(Kept(cands, orders)) == set y | y in cands && !HasUpstream(y, Names(cands), succ)
  {
    var all := Names(cands);
    NoNames(cands);
    DelayAllExact(all, succ, cands, orders, Delay(cands, {}));
    var st := DelayAll(cands, orders, Delay(cands, {}));
    NoNames(st.kept);
    forall y | y in all
      ensures y in st.kept <==> !HasUpstream(y, all, succ)
    {
      if HasUpstream(y, all, succ) {
        var x :| Upstream(x, y, all, succ);
        assert x in cands;
      }
    }
  }

  // The iteration that meets the link from x to y first: y is delayed by x, which
  // is safe from then on.
  lemma FirstLink(cands: set<Name>, succ: map<Name, set<Name>>, x: Name, y: Name)
    returns (a: seq<Name>, o: Orders)
    requires Upstream(x, y, cands, succ)
    ensures Distinct(a) && Names(a) == cands && Enumerates(o, succ)
    ensures x in Kept(a, o) && y !in Kept(a, o)
  {
    a := EnumerationFrom(cands, x);
    var o' := OrdersFor(succ);
    var e := EnumerationFrom(succ[x], y);
    o := o'[x := e];
    NoNames(a);
    var st := Delay(a, {});
    assert |a| > 1 by {
      assert y in a && y != a[0];
    }
    var st1 := DelayOne(x, y, st);
    assert DelayBy(x, e, st) == DelayBy(x, e[1..], st1);
    StaysKept(x, e[1..], st1, x);
    DelayOnlyShrinks(x, e[1..], st1);
    var st2 := DelayBy(x, e, st);
    assert DelayAll(a, o, st) == DelayAll(a[1..], o, st2);
    AllStaysKept(a[1..], o, st2, x);
    AllOnlyShrinks(a[1..], o, st2);
  }

  // ---- When a round is independent of iteration order ----

  // What a round keeps is the same for every order in which its candidates can be
  // collected, and every iteration of the delay pass.
  ghost predicate OrderIndependent(sources: seq<Name>, feed: map<Name, set<Name>>, push: set<Name>, out: seq<Name>,
                                   succ: map<Name, set<Name>>) {
    forall a, b, oa, ob ::
      && Collected(sources, feed, push, out, a) && Enumerates(oa, succ)
      && Collected(sources, feed, push, out, b) && Enumerates(ob, succ) ==>
        Names(Kept(a, oa)) == Names(Kept(b, ob))
  }

  // All candidates come from one app.
  ghost predicate OnlySource(s: Name, sources: seq<Name>, feed: map<Name, set<Name>>, cands: set<Name>) {
    s in sources && forall x, y :: x in sources && y in cands && Brings(x, y, feed) ==> x == s
  }

  ghost predicate OneSource(sources: seq<Name>, feed: map<Name, set<Name>>, cands: set<Name>) {
    exists s :: OnlySource(s, sources, feed, cands)
  }

  lemma NothingNew(listed: seq<Name>, r: seq<Name>)
    requires listed <= r && Distinct(r)
    ensures (forall y :: y in r ==> y in listed) ==> r == listed
  {
    if |listed| < |r| {
      assert r[|listed|] in r && r[|listed|] !in r[..|listed|];
    }
  }

  lemma {:induction false} AddFromAll(a: seq<Name>, rest: seq<Name>, push: set<Name>, out: seq<Name>)
    requires Distinct(a) && forall y :: y in a ==> y in push && y !in out
    requires forall y :: y in rest ==> y !in push || y in out
    ensures AddFrom([], a + rest, push, out) == a
    decreases |a| + |rest|
  {
    var all := a + rest;
    if rest != [] {
      AddFromAll(a, rest[..|rest| - 1], push, out);
      assert all[..|all| - 1] == a + rest[..|rest| - 1];
      assert rest[|rest| - 1] in rest;
    } else if a != [] {
      var init := a[..|a| - 1];
      AddFromAll(init, [], push, out);
      assert all[..|all| - 1] == init + [] && a == init + [a[|a| - 1]];
    }
  }

  // With one source, collecting gives the order of that source.
  lemma {:induction false} CollectFromOne(sources: seq<Name>, s: Name, a: seq<Name>, rest: seq<Name>, orders: Orders,
                                          push: set<Name>, out: seq<Name>)
    requires Distinct(sources) && Distinct(a) && s in orders && orders[s] == a + rest
    requires forall y :: y in a ==> y in push && y !in out
    requires forall y :: y in rest ==> y !in push || y in out
    requires forall x, y :: x in sources && x in orders && y in orders[x] && y in push && y !in out ==> x == s
    ensures Collect(sources, orders, push, out) == if s in sources then a else []
  {
    if sources != [] {
      var init, x := sources[..|sources| - 1], sources[|sources| - 1];
      CollectFromOne(init, s, a, rest, orders, push, out);
      assert sources == init + [x];
      if x == s {
        AddFromAll(a, rest, push, out);
      } else if x in orders {
        AddFromHolds(Collect(init, orders, push, out), orders[x], push, out);
        NothingNew(Collect(init, orders, push, out), AddFrom(Collect(init, orders, push, out), orders[x], push, out));
      }
    }
  }

  // Then the candidates can come in any order.
  lemma AnyOrder(sources: seq<Name>, feed: map<Name, set<Name>>, push: set<Name>, out: seq<Name>, a: seq<Name>)
    requires Distinct(sources) && Distinct(a) && a != [] && OneSource(sources, feed, Names(a))
    requires forall y :: y in a <==> y in push && y !in out && exists x :: x in sources && Brings(x, y, feed)
    ensures Collected(sources, feed, push, out, a)
  {
    var s :| OnlySource(s, sources, feed, Names(a));
    NoNames(a);
    forall y | y in a
      ensures Brings(s, y, feed)
    {
      var x :| x in sources && Brings(x, y, feed);
    }
    assert a[0] in a;
    var rest := Enumeration(feed[s] - Names(a));
    NoNames(rest);
    DistinctAppend(a, rest);
    var orders := OrdersFor(feed);
    orders := orders[s := a + rest];
    assert Names(a + rest) == feed[s];
    assert Enumerates(orders, feed);
    forall x, y | x in sources && x in orders && y in orders[x] && y in push && y !in out
      ensures x == s
    {
      NoNames(orders[x]);
      assert Brings(x, y, feed);
    }
    forall y | y in rest
      ensures y !in push || y in out
    {
      assert Brings(s, y, feed);
    }
    CollectFromOne(sources, s, a, rest, orders, push, out);
  }

  lemma CollectedNone(sources: seq<Name>, feed: map<Name, set<Name>>, push: set<Name>, out: seq<Name>)
    requires forall x, y :: x in sources && Brings(x, y, feed) && y in push ==> y in out
    ensures Collected(sources, feed, push, out, [])
  {
    var orders := OrdersFor(feed);
    CollectHolds(sources, orders, feed, push, out);
    var a := Collect(sources, orders, push, out);
    NoNames(a);
    assert Names(a) == {};
  }

  // Without middle candidates a round is independent of iteration order.
  lemma NoMiddleSuffices(sources: seq<Name>, feed: map<Name, set<Name>>, push: set<Name>, out: seq<Name>,
                         succ: map<Name, set<Name>>, cands: seq<Name>)
    requires Collected(sources, feed, push, out, cands) && cands != []
    requires NoSelf(Names(cands), succ) && NoMiddle(Names(cands), succ)
    ensures OrderIndependent(sources, feed, push, out, succ)
  {
    hide NoMiddle, NoSelf, Kept, Collected;
    CollectedSame(sources, feed, push, out, cands);
    forall a, b, oa, ob |
      && Collected(sources, feed, push, out, a) && Enumerates(oa, succ)
      && Collected(sources, feed, push, out, b) && Enumerates(ob, succ)
      ensures Names(Kept(a, oa)) == Names(Kept(b, ob))
    {
      KeptSame(sources, feed, push, out, succ, cands, a, oa);
      KeptSame(sources, feed, push, out, succ, cands, b, ob);
    }
  }

  lemma KeptSame(sources: seq<Name>, feed: map<Name, set<Name>>, push: set<Name>, out: seq<Name>,
                 succ: map<Name, set<Name>>, cands: seq<Name>, a: seq<Name>, oa: Orders)
    requires Collected(sources, feed, push, out, cands) && Collected(sources, feed, push, out, a) && cands != []
    requires NoSelf(Names(cands), succ) && NoMiddle(Names(cands), succ) && Enumerates(oa, succ)
    ensures Names(Kept(a, oa)) == set y | y in cands && !HasUpstream(y, Names(cands), succ)
  {
    hide NoMiddle, NoSelf, Kept, Collected;
    CollectedSame(sources, feed, push, out, cands);
    CollectedSame(sources, feed, push, out, a);
    assert forall y :: y in a <==> y in cands;
    assert cands[0] in a;
    assert Names(a) == Names(cands);
    KeptExact(a, succ, oa);
  }

  // Where all candidates come from one app, exactly then.
  lemma OrderIndependentExactly(sources: seq<Name>, feed: map<Name, set<Name>>, push: set<Name>, out: seq<Name>,
                                succ: map<Name, set<Name>>, cands: seq<Name>)
    requires Collected(sources, feed, push, out, cands) && cands != [] && NoSelf(Names(cands), succ)
    requires Distinct(sources) && OneSource(sources, feed, Names(cands))
    ensures OrderIndependent(sources, feed, push, out, succ) <==> NoMiddle(Names(cands), succ)
  {
    hide NoSelf, Kept, Collected, OneSource;
    if NoMiddle(Names(cands), succ) {
      hide NoMiddle;
      NoMiddleSuffices(sources, feed, push, out, succ, cands);
    } else {
      var y, a, oa, b, ob := MiddleDiffers(sources, feed, push, out, succ, cands);
      NoNames(Kept(a, oa));
      NoNames(Kept(b, ob));
    }
  }

  // A middle candidate is kept in one order and delayed in another.
  lemma MiddleDiffers(sources: seq<Name>, feed: map<Name, set<Name>>, push: set<Name>, out: seq<Name>,
                      succ: map<Name, set<Name>>, cands: seq<Name>)
    returns (y: Name, a: seq<Name>, oa: Orders, b: seq<Name>, ob: Orders)
    requires Collected(sources, feed, push, out, cands) && cands != [] && !NoMiddle(Names(cands), succ)
    requires Distinct(sources) && OneSource(sources, feed, Names(cands))
    ensures y in cands
    ensures Collected(sources, feed, push, out, a) && Enumerates(oa, succ) && y !in Kept(a, oa)
    ensures Collected(sources, feed, push, out, b) && Enumerates(ob, succ) && y in Kept(b, ob)
  {
    hide Kept, Collected, OneSource;
    var all := Names(cands);
    y :| y in all && HasUpstream(y, all, succ) && HasDownstream(y, all, succ);
    var x :| Upstream(x, y, all, succ);
    var z :| Upstream(y, z, all, succ);
    a, oa := FirstLink(all, succ, x, y);
    b, ob := FirstLink(all, succ, y, z);
    CollectedSame(sources, feed, push, out, cands);
    NoNames(cands);
    NoNames(a);
    NoNames(b);
    AnyOrder(sources, feed, push, out, a);
    AnyOrder(sources, feed, push, out, b);
  }

  // ---- When whole runs agree ----

  ghost predicate Quiet(net: Net, t: seq<Round>) {
    forall i :: 0 <= i < |t| && t[i].cands != [] ==> NoMiddle(Names(t[i].cands), Left(net, t[i].exhale))
  }

  ghost predicate SameRound(a: Round, b: Round) {
    a.exhale == b.exhale && Names(a.cands) == Names(b.cands)
  }

  // The candidates that nothing delays.
  ghost function Roots(net: Net, r: Round): set<Name> {
    set y | y in r.cands && !HasUpstream(y, Names(r.cands), Left(net, r.exhale))
  }

  // What a round without middle candidates makes of its candidates.
  lemma NextDecided(net: Net, a: Round, b: Round)
    requires RoundInv(net, a) && NextRound(net, a, b) && NoSelfLinks(net)
    requires NoMiddle(Names(a.cands), Left(net, a.exhale))
    ensures b.exhale == a.exhale + Listing(Roots(net, a))
    ensures forall y :: y in b.cands <==>
              y !in b.exhale && exists x :: x in Roots(net, a) && x in Left(net, a.exhale) && Pushes(net, x, y)
  {
    hide NoMiddle, Kept, Fed, FedBy, HasUpstream, Collected, Enumerates;
    var orders :| NextWith(net, a, b, orders);
    var kept := Kept(a.cands, orders);
    NoSelfCandidates(net, a);
    KeptExact(a.cands, Left(net, a.exhale), orders);
    KeptSome(a.cands, orders);
    SortKeeps(kept);
    SortedUnique(Sort(kept), Listing(Roots(net, a)));
    NoNames(Sort(kept));
  }

  lemma SameRoots(net: Net, a: Round, b: Round)
    requires SameRound(a, b)
    ensures Roots(net, a) == Roots(net, b)
  {
    hide HasUpstream;
    NoNames(a.cands);
    NoNames(b.cands);
  }

  lemma NextAgrees(net: Net, a: Round, b: Round, a': Round, b': Round)
    requires RoundInv(net, a) && RoundInv(net, b) && SameRound(a, b) && NoSelfLinks(net)
    requires NextRound(net, a, a') && NextRound(net, b, b')
    requires NoMiddle(Names(a.cands), Left(net, a.exhale))
    ensures SameRound(a', b')
  {
    hide NoMiddle, RoundInv, NextRound, NoSelfLinks, Roots, Listing;
    NextDecided(net, a, a');
    NextDecided(net, b, b');
    SameRoots(net, a, b);
    NoNames(a'.cands);
    NoNames(b'.cands);
  }

  // Two runs go through the same rounds: they exhale the same apps in the same
  // order, from the same candidates.
  ghost predicate SameRounds(t: seq<Round>, u: seq<Round>) {
    |t| == |u| && forall i :: 0 <= i < |t| ==> SameRound(t[i], u[i])
  }

  // If one run meets no middle candidate in any round, every run is like it.
  lemma {:induction false} QuietRunDecides(net: Net, t: seq<Round>, u: seq<Round>)
    requires Complete(net, t) && Complete(net, u) && Quiet(net, t) && NoSelfLinks(net)
    ensures SameRounds(t, u) && Final(t).exhale == Final(u).exhale
  {
    hide NextRound, RoundInv, NoMiddle;
    var i := 0;
    NoNames(t[0].cands);
    NoNames(u[0].cands);
    assert Names(t[0].cands) == Names(u[0].cands);
    while i < |t| - 1
      invariant 0 <= i < |t| && i < |u|
      invariant forall j :: 0 <= j <= i ==> SameRound(t[j], u[j])
    {
      NoNames(t[i].cands);
      NoNames(u[i].cands);
      PrefixInv(net, t, i);
      PrefixInv(net, u, i);
      if t[i].cands == [] {
        EndsThere(net, t, i);
      }
      assert NextRound(net, t[i], t[i + 1]) && NextRound(net, u[i], u[i + 1]);
      NextAgrees(net, t[i], u[i], t[i + 1], u[i + 1]);
      i := i + 1;
    }
    NoNames(t[i].cands);
    NoNames(u[i].cands);
    EndsThere(net, u, i);
  }

  // Every round's candidates come from one app.
  ghost predicate Single(net: Net, t: seq<Round>) {
    forall i :: 0 <= i < |t| && t[i].cands != [] ==>
      OneSource(SourcesAt(net, t, i), FeedAt(net, t, i), Names(t[i].cands))
  }

  // For such a run: all runs go through its rounds exactly if it meets no middle
  // candidate.
  lemma QuietExactly(net: Net, t: seq<Round>)
    requires Complete(net, t) && NoSelfLinks(net) && Single(net, t)
    ensures Quiet(net, t) <==> forall u :: Complete(net, u) ==> SameRounds(t, u)
  {
    hide Complete, SameRounds, NoMiddle, OneSource;
    if Quiet(net, t) {
      forall u | Complete(net, u)
        ensures SameRounds(t, u)
      {
        QuietRunDecides(net, t, u);
      }
    } else {
      var i :| 0 <= i < |t| && t[i].cands != [] && !NoMiddle(Names(t[i].cands), Left(net, t[i].exhale));
      var u := OtherRun(net, t, i);
    }
  }

  lemma OtherRun(net: Net, t: seq<Round>, i: nat) returns (u: seq<Round>)
    requires Complete(net, t) && i < |t| && t[i].cands != []
    requires OneSource(SourcesAt(net, t, i), FeedAt(net, t, i), Names(t[i].cands))
    requires !NoMiddle(Names(t[i].cands), Left(net, t[i].exhale))
    ensures Complete(net, u) && !SameRounds(t, u)
  {
    hide NoMiddle, OneSource, Kept, Sort, Collected, NextRound, NextWith, Left, RoundInv;
    var succ := Left(net, t[i].exhale);
    RoundCollected(net, t, i);
    var y, a, oa, b, ob := MiddleDiffers(SourcesAt(net, t, i), FeedAt(net, t, i), net.push, t[i].exhale,
                                         succ, t[i].cands);
    assert i < |t| - 1;
    PrefixInv(net, t, i);
    InvDistinct(net, t[i]);
    if y in t[i + 1].exhale {
      u := BranchAt(net, t, i, a, oa, y);
    } else {
      u := BranchAt(net, t, i, b, ob, y);
    }
  }

  // A run that comes to round `i` with the candidates in another order.
  lemma BranchAt(net: Net, t: seq<Round>, i: nat, a: seq<Name>, oa: Orders, y: Name) returns (u: seq<Round>)
    requires Rounds(net, t) && i < |t| - 1 && CollectedAt(net, t, i, a) && Enumerates(oa, Left(net, t[i].exhale))
    ensures Complete(net, u) && |u| > i + 1
    ensures y in u[i + 1].exhale <==> y in t[i].exhale || y in Kept(a, oa)
  {
    hide Kept, Collected, NextRound, NextWith, Left, RoundInv;
    var v := Recollected(net, t, i, a);
    PrefixInv(net, v, i);
    InvDistinct(net, v[i]);
    assert t[i].cands != [] by {
      if t[i].cands == [] {
        EndsThere(net, t, i);
      }
    }
    NoNames(a);
    NoNames(t[i].cands);
    u := Branched(net, v, oa);
    KeptSome(a, oa);
    SortKeeps(Kept(a, oa));
    NoNames(Kept(a, oa));
    NoNames(Sort(Kept(a, oa)));
  }
}
