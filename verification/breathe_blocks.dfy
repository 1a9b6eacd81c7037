// The order in which candidates are collected: what comes in front of what in
// every iteration, and what in some.
module BreatheBlocks {
  import opened BreatheOrder

  // ---- The order of candidates ----

  // In every collected list, `y` comes from a source before any that brings in `x`.
  ghost predicate Earlier(sources: seq<Name>, feed: map<Name, set<Name>>, y: Name, x: Name) {
    exists i :: EarlierAt(sources, feed, y, x, i)
  }

  ghost predicate EarlierAt(sources: seq<Name>, feed: map<Name, set<Name>>, y: Name, x: Name, i: nat) {
    && i < |sources| && Brings(sources[i], y, feed)
    && (forall j :: 0 <= j <= i ==> !Brings(sources[j], x, feed))
  }

  ghost predicate Precedes(a: seq<Name>, y: Name, x: Name) {
    exists i :: 0 <= i < |a| && a[i] == y && x !in a[..i + 1]
  }

  lemma {:induction false} CollectPrefix(sources: seq<Name>, orders: Orders, push: set<Name>, out: seq<Name>, k: nat)
    requires k <= |sources|
    ensures Collect(sources[..k], orders, push, out) <= Collect(sources, orders, push, out)
    decreases |sources|
  {
    if k < |sources| {
      var init, x := sources[..|sources| - 1], sources[|sources| - 1];
      CollectPrefix(init, orders, push, out, k);
      assert init[..k] == sources[..k];
      if x in orders {
        AddFromGrows(Collect(init, orders, push, out), orders[x], push, out);
      }
    } else {
      assert sources[..k] == sources;
    }
  }

  lemma {:induction false} AddFromGrows(listed: seq<Name>, targets: seq<Name>, push: set<Name>, out: seq<Name>)
    ensures listed <= AddFrom(listed, targets, push, out)
  {
    if targets != [] {
      AddFromGrows(listed, targets[..|targets| - 1], push, out);
    }
  }

  // An earlier source puts its candidates in front.
  lemma EarlierPrecedes(sources: seq<Name>, feed: map<Name, set<Name>>, push: set<Name>, out: seq<Name>,
                        a: seq<Name>, y: Name, x: Name)
    requires Collected(sources, feed, push, out, a) && y in a && Earlier(sources, feed, y, x)
    ensures Precedes(a, y, x)
  {
    hide Collect;
    var orders :| Enumerates(orders, feed) && a == Collect(sources, orders, push, out);
    var i: nat :| EarlierAt(sources, feed, y, x, i);
    var part := sources[..i + 1];
    CollectPrefix(sources, orders, push, out, i + 1);
    CollectHolds(sources, orders, feed, push, out);
    CollectHolds(part, orders, feed, push, out);
    var b := Collect(part, orders, push, out);
    assert part[i] in part && Brings(part[i], y, feed);
    var k :| 0 <= k < |b| && b[k] == y;
    assert a[k] == y && a[..k + 1] == b[..k + 1];
    assert x !in b by {
      forall z | z in part
        ensures !Brings(z, x, feed)
      {
        var j :| 0 <= j < |part| && part[j] == z;
        assert sources[j] == z;
      }
    }
  }

  // Everything in front of `x` comes from an earlier source.
  ghost predicate FirstOfBlock(sources: seq<Name>, feed: map<Name, set<Name>>, a: seq<Name>, x: Name) {
    forall i :: 0 <= i < |a| && x !in a[..i + 1] ==> Earlier(sources, feed, a[i], x)
  }

  // The iteration that meets `x` first in each set.
  lemma {:induction false} OrdersWithFirst(succ: map<Name, set<Name>>, x: Name) returns (o: Orders)
    ensures Enumerates(o, succ)
    ensures MeetFirst(o, succ, x)
    decreases succ.Keys
  {
    if succ == map[] {
      o := map[];
    } else {
      var k :| k in succ;
      var rest := OrdersWithFirst(succ - {k}, x);
      var e: seq<Name>;
      if x in succ[k] {
        e := EnumerationFrom(succ[k], x);
      } else {
        e := Enumeration(succ[k]);
      }
      o := rest[k := e];
      assert forall s :: s in rest ==> s in succ - {k} && (succ - {k})[s] == succ[s];
    }
  }

  lemma {:induction false} AddFromFirst(listed: seq<Name>, targets: seq<Name>, push: set<Name>, out: seq<Name>, x: Name)
    requires targets != [] && targets[0] == x && x in push && x !in out && x !in listed
    ensures listed + [x] <= AddFrom(listed, targets, push, out)
  {
    var init := targets[..|targets| - 1];
    if init == [] {
      assert AddFrom(listed, init, push, out) == listed;
    } else {
      AddFromFirst(listed, init, push, out, x);
    }
  }

  // Iterations that meet `x` first wherever they meet it.
  ghost predicate MeetFirst(orders: Orders, feed: map<Name, set<Name>>, x: Name) {
    forall s :: s in orders && s in feed && x in feed[s] ==> orders[s] != [] && orders[s][0] == x
  }

  lemma {:induction false} FirstCollected(sources: seq<Name>, feed: map<Name, set<Name>>, push: set<Name>,
                                          out: seq<Name>, orders: Orders, x: Name)
    requires Enumerates(orders, feed) && x in push && x !in out && MeetFirst(orders, feed, x)
    ensures FirstOfBlock(sources, feed, Collect(sources, orders, push, out), x)
  {
    hide Earlier, Enumerates, Collect, MeetFirst;
    var a := Collect(sources, orders, push, out);
    if sources == [] {
      assert a == [] by {
        CollectNone(orders, push, out);
      }
    } else {
      var init := sources[..|sources| - 1];
      var b := Collect(init, orders, push, out);
      FirstCollected(init, feed, push, out, orders, x);
      CollectPrefix(sources, orders, push, out, |init|);
      forall i | 0 <= i < |a| && x !in a[..i + 1]
        ensures Earlier(sources, feed, a[i], x)
      {
        if i < |b| {
          assert b[..i + 1] == a[..i + 1];
          EarlierLonger(init, sources, feed, b[i], x);
        } else {
          NewFromLast(sources, feed, push, out, orders, x, i);
        }
      }
    }
  }

  lemma CollectNone(orders: Orders, push: set<Name>, out: seq<Name>)
    ensures Collect([], orders, push, out) == []
  {
  }

  lemma EarlierLonger(init: seq<Name>, sources: seq<Name>, feed: map<Name, set<Name>>, y: Name, x: Name)
    requires init <= sources && Earlier(init, feed, y, x)
    ensures Earlier(sources, feed, y, x)
  {
    var i: nat :| EarlierAt(init, feed, y, x, i);
    assert EarlierAt(sources, feed, y, x, i);
  }

  // A source that brings in `x` first puts it right behind those before.
  lemma FrontOfLast(sources: seq<Name>, feed: map<Name, set<Name>>, push: set<Name>, out: seq<Name>,
                    orders: Orders, x: Name, i: nat)
    requires sources != [] && Enumerates(orders, feed) && x in push && x !in out && MeetFirst(orders, feed, x)
    requires var a, b := Collect(sources, orders, push, out), Collect(sources[..|sources| - 1], orders, push, out);
             |b| <= i < |a| && x !in b
    ensures Brings(sources[|sources| - 1], x, feed) ==> x in Collect(sources, orders, push, out)[..i + 1]
  {
    var init, s := sources[..|sources| - 1], sources[|sources| - 1];
    var a, b := Collect(sources, orders, push, out), Collect(init, orders, push, out);
    if Brings(s, x, feed) {
      AddFromFirst(b, orders[s], push, out, x);
      assert a[..i + 1][|b|] == x;
    }
  }

  // What the last source adds in front of `x`.
  lemma NewFromLast(sources: seq<Name>, feed: map<Name, set<Name>>, push: set<Name>, out: seq<Name>,
                    orders: Orders, x: Name, i: nat)
    requires sources != [] && Enumerates(orders, feed) && x in push && x !in out && MeetFirst(orders, feed, x)
    requires var a, b := Collect(sources, orders, push, out), Collect(sources[..|sources| - 1], orders, push, out);
             |b| <= i < |a| && x !in a[..i + 1] && b <= a
    ensures Earlier(sources, feed, Collect(sources, orders, push, out)[i], x)
  {
    hide Enumerates, Collect, MeetFirst;
    var init, s := sources[..|sources| - 1], sources[|sources| - 1];
    var a, b := Collect(sources, orders, push, out), Collect(init, orders, push, out);
    CollectHolds(sources, orders, feed, push, out);
    CollectHolds(init, orders, feed, push, out);
    BehindPrefix(a, b, i);
    FrontOfLast(sources, feed, push, out, orders, x, i);
    assert a[i] in a;
    var z :| z in sources && Brings(z, a[i], feed);
    assert sources == init + [s];
    assert z == s;
    var j := |sources| - 1;
    forall k | 0 <= k <= j
      ensures !Brings(sources[k], x, feed)
    {
      if k < j {
        assert init[k] in init;
      }
    }
    assert EarlierAt(sources, feed, a[i], x, j);
  }

  lemma BehindPrefix(a: seq<Name>, b: seq<Name>, i: nat)
    requires b <= a && |b| <= i < |a|
    ensures forall y :: y in b ==> y in a[..i + 1]
    ensures Distinct(a) ==> a[i] !in b
  {
    forall y | y in b
      ensures y in a[..i + 1]
    {
      var k :| 0 <= k < |b| && b[k] == y;
      assert a[..i + 1][k] == y;
    }
    assert forall k :: 0 <= k < |b| ==> b[k] == a[k];
  }

  lemma BlockFirst(sources: seq<Name>, feed: map<Name, set<Name>>, push: set<Name>, out: seq<Name>, x: Name)
    returns (a: seq<Name>)
    requires x in push && x !in out
    ensures Collected(sources, feed, push, out, a) && FirstOfBlock(sources, feed, a, x)
  {
    var orders := OrdersWithFirst(feed, x);
    a := Collect(sources, orders, push, out);
    FirstCollected(sources, feed, push, out, orders, x);
  }
}
