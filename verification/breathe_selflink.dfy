// Push apps linked to themselves: when the push order loses one.
module BreatheSelfLinks {
  import opened BreatheOrder
  import opened BreatheQuiet
  import opened BreatheRuns
  import opened BreatheBlocks

  // ---- What one turn of the delay pass does ----

  ghost predicate SelfLinked(x: Name, succ: map<Name, set<Name>>) {
    x in succ && x in succ[x]
  }

  lemma {:induction false} DelayByAppend(name: Name, a: seq<Name>, b: seq<Name>, st: Delay)
    ensures DelayBy(name, a + b, st) == DelayBy(name, b, DelayBy(name, a, st))
    decreases |a|
  {
    if a == [] {
      assert a + b == b;
    } else {
      DelayByAppend(name, a[1..], b, DelayOne(name, a[0], st));
      assert (a + b)[1..] == a[1..] + b;
    }
  }

  lemma {:induction false} DelayAllAppend(a: seq<Name>, b: seq<Name>, orders: Orders, st: Delay)
    ensures DelayAll(a + b, orders, st) == DelayAll(b, orders, DelayAll(a, orders, st))
    decreases |a|
  {
    if a == [] {
      assert a + b == b;
    } else {
      DelayAllAppend(a[1..], b, orders, if a[0] in orders then DelayBy(a[0], orders[a[0]], st) else st);
      assert (a + b)[1..] == a[1..] + b;
    }
  }

  // An app without another target left removes itself, if anything.
  lemma {:induction false} OnlyItself(name: Name, targets: seq<Name>, st: Delay)
    requires forall z :: z in targets && z != name ==> z !in st.kept
    requires name !in st.selected && name in st.kept && |st.kept| > 1 && Distinct(targets)
    ensures DelayBy(name, targets, st) ==
            if name in targets then Delay(Without(st.kept, name), st.selected + {name}) else st
  {
    if targets != [] {
      if targets[0] == name {
        assert name !in targets[1..];
        var st1 := DelayOne(name, name, st);
        assert st1 == Delay(Without(st.kept, name), st.selected + {name});
        Ineffective(name, targets[1..], st1);
      } else {
        OnlyItself(name, targets[1..], st);
      }
    }
  }

  lemma {:induction false} Ineffective(name: Name, targets: seq<Name>, st: Delay)
    requires forall z :: z in targets ==> z !in st.kept || z in st.selected
    ensures DelayBy(name, targets, st) == st
  {
    if targets != [] {
      Ineffective(name, targets[1..], st);
    }
  }

  // An app that removes another one before itself is safe.
  lemma {:induction false} TurnSelects(name: Name, targets: seq<Name>, st: Delay, z: Name)
    requires name !in targets && name in st.kept && z in targets && z in st.kept && z !in st.selected
    ensures name in DelayBy(name, targets, st).selected && name in DelayBy(name, targets, st).kept
  {
    var st1 := DelayOne(name, targets[0], st);
    TwoMembers(st.kept, name, targets[0]);
    if st1 == st {
      TurnSelects(name, targets[1..], st, z);
    } else {
      StaysKept(name, targets[1..], st1, name);
    }
  }

  lemma {:induction false} Untouched(name: Name, targets: seq<Name>, st: Delay, x: Name)
    requires x !in targets && x in st.kept
    ensures x in DelayBy(name, targets, st).kept
    ensures DelayBy(name, targets, st).selected <= st.selected + {name}
  {
    if targets != [] {
      Untouched(name, targets[1..], DelayOne(name, targets[0], st), x);
    }
  }

  // ---- An app that is spared ----

  // Every other candidate is linked to itself, comes in front of `x`, and has only
  // targets that come in front of itself: one after the other they all remove
  // themselves, and `x` is left alone.
  ghost predicate Spared(sources: seq<Name>, feed: map<Name, set<Name>>, succ: map<Name, set<Name>>,
                         cands: set<Name>, x: Name) {
    forall o :: o in cands && o != x ==>
      && SelfLinked(o, succ) && Earlier(sources, feed, o, x)
      && (forall z :: Upstream(o, z, cands, succ) ==> Earlier(sources, feed, z, o))
  }

  // The candidates met so far are those that are gone.
  ghost predicate Stripped(a: seq<Name>, i: nat, st: Delay)
    requires i <= |a|
  {
    && Distinct(st.kept) && (forall y :: y in st.kept <==> y in a[i..])
    && (forall y :: y in st.selected ==> y in a[..i])
  }

  lemma StripOne(sources: seq<Name>, feed: map<Name, set<Name>>, push: set<Name>, out: seq<Name>,
                 succ: map<Name, set<Name>>, a: seq<Name>, orders: Orders, x: Name, i: nat, st: Delay)
    requires Collected(sources, feed, push, out, a) && Distinct(a) && Spared(sources, feed, succ, Names(a), x)
    requires Enumerates(orders, succ) && i < |a| - 1 && a[|a| - 1] == x && Stripped(a, i, st)
    ensures a[i] in orders && Stripped(a, i + 1, DelayBy(a[i], orders[a[i]], st))
  {
    hide Collected, Earlier, Stripped, Spared, SelfLinked;
    SparedOne(sources, feed, succ, a, orders, x, i);
    forall z | z in orders[a[i]] && z != a[i]
      ensures z !in a[i..]
    {
      StripTarget(sources, feed, push, out, succ, a, orders, x, i, z);
    }
    StripTurn(a, orders[a[i]], i, st);
  }

  lemma SparedOne(sources: seq<Name>, feed: map<Name, set<Name>>, succ: map<Name, set<Name>>, a: seq<Name>,
                  orders: Orders, x: Name, i: nat)
    requires Distinct(a) && Spared(sources, feed, succ, Names(a), x)
    requires Enumerates(orders, succ) && i < |a| - 1 && a[|a| - 1] == x
    ensures a[i] in succ && a[i] in orders && a[i] in orders[a[i]] && Distinct(orders[a[i]])
  {
    hide Earlier;
    NoNames(a);
    assert SelfLinked(a[i], succ);
    NoNames(orders[a[i]]);
  }

  // Another target of the candidate at `i` was met before.
  lemma StripTarget(sources: seq<Name>, feed: map<Name, set<Name>>, push: set<Name>, out: seq<Name>,
                    succ: map<Name, set<Name>>, a: seq<Name>, orders: Orders, x: Name, i: nat, z: Name)
    requires Collected(sources, feed, push, out, a) && Distinct(a) && Spared(sources, feed, succ, Names(a), x)
    requires Enumerates(orders, succ) && i < |a| - 1 && a[|a| - 1] == x
    requires a[i] in orders && z in orders[a[i]] && z != a[i]
    ensures z !in a[i..]
  {
    hide Collected, Earlier, SelfLinked;
    var f := a[i];
    NoNames(a);
    NoNames(orders[f]);
    if z in a {
      assert Upstream(f, z, Names(a), succ);
      EarlierPrecedes(sources, feed, push, out, a, z, f);
      var k := PlaceOf(a, i, z);
      NotBehind(a, k, i);
    } else {
      assert forall y :: y in a[i..] ==> y in a;
    }
  }

  // So the candidate at `i` removes itself and nothing else.
  lemma StripTurn(a: seq<Name>, targets: seq<Name>, i: nat, st: Delay)
    requires Distinct(a) && i < |a| - 1 && Stripped(a, i, st) && Distinct(targets) && a[i] in targets
    requires forall z :: z in targets && z != a[i] ==> z !in a[i..]
    ensures Stripped(a, i + 1, DelayBy(a[i], targets, st))
  {
    var f := a[i];
    assert a[i..] == [f] + a[i + 1..] && a[i + 1] in a[i..];
    TwoMembers(st.kept, a[i + 1], f);
    NotBehind(a, i, i + 1);
    assert f !in a[..i];
    OnlyItself(f, targets, st);
    WithoutOne(st.kept, f);
    assert a[..i + 1] == a[..i] + [f];
  }

  lemma PlaceOf(a: seq<Name>, i: nat, z: Name) returns (k: nat)
    requires i < |a| && Precedes(a, z, a[i])
    ensures k < i && a[k] == z
  {
    k :| 0 <= k < |a| && a[k] == z && a[i] !in a[..k + 1];
    assert forall j :: 0 <= j <= k ==> a[j] in a[..k + 1];
  }

  lemma NotBehind(a: seq<Name>, k: nat, i: nat)
    requires Distinct(a) && k < i <= |a|
    ensures a[k] !in a[i..]
  {
  }

  lemma {:induction false} StripAll(sources: seq<Name>, feed: map<Name, set<Name>>, push: set<Name>, out: seq<Name>,
                                    succ: map<Name, set<Name>>, a: seq<Name>, orders: Orders, x: Name, i: nat,
                                    st: Delay)
    requires Collected(sources, feed, push, out, a) && Distinct(a) && Spared(sources, feed, succ, Names(a), x)
    requires Enumerates(orders, succ) && i < |a| && a[|a| - 1] == x && Stripped(a, i, st)
    ensures x in DelayAll(a[i..], orders, st).kept
    decreases |a| - i
  {
    hide Collected, Spared, Enumerates;
    assert a[i..][0] == a[i] && a[i..][1..] == a[i + 1..];
    if i < |a| - 1 {
      StripOne(sources, feed, push, out, succ, a, orders, x, i, st);
      StripAll(sources, feed, push, out, succ, a, orders, x, i + 1, DelayBy(a[i], orders[a[i]], st));
    } else {
      LastStays(a, orders, x, st);
    }
  }

  lemma LastStays(a: seq<Name>, orders: Orders, x: Name, st: Delay)
    requires a != [] && a[|a| - 1] == x && Stripped(a, |a| - 1, st)
    ensures x in DelayAll(a[|a| - 1..], orders, st).kept
  {
    assert a[|a| - 1..] == [x];
    SingleName(st.kept, x);
    assert [x][1..] == [];
    if x in orders {
      AloneStays(x, x, orders[x], st);
    }
    assert DelayAll([x], orders, st) == DelayAll([], orders, if x in orders then DelayBy(x, orders[x], st) else st);
  }

  // A spared candidate is kept in every order.
  lemma SparedStays(sources: seq<Name>, feed: map<Name, set<Name>>, push: set<Name>, out: seq<Name>,
                    succ: map<Name, set<Name>>, a: seq<Name>, orders: Orders, x: Name)
    requires Collected(sources, feed, push, out, a) && Spared(sources, feed, succ, Names(a), x)
    requires x in a && Enumerates(orders, succ)
    ensures x in Kept(a, orders)
  {
    hide Collected, Enumerates, Spared;
    CollectedSame(sources, feed, push, out, a);
    SparedLast(sources, feed, push, out, succ, a, x);
    assert a[0..] == a;
    StripAll(sources, feed, push, out, succ, a, orders, x, 0, Delay(a, {}));
  }

  lemma SparedLast(sources: seq<Name>, feed: map<Name, set<Name>>, push: set<Name>, out: seq<Name>,
                   succ: map<Name, set<Name>>, a: seq<Name>, x: Name)
    requires Collected(sources, feed, push, out, a) && Spared(sources, feed, succ, Names(a), x)
    requires Distinct(a) && x in a
    ensures a[|a| - 1] == x
  {
    hide Collected, Precedes, Earlier;
    NoNames(a);
    var last := a[|a| - 1];
    LastOfAll(a, last, x);
    if last != x {
      EarlierPrecedes(sources, feed, push, out, a, last, x);
    }
  }

  lemma LastOfAll(a: seq<Name>, last: Name, x: Name)
    requires Distinct(a) && x in a && last == a[|a| - 1]
    ensures !Precedes(a, last, x)
  {
    forall i | 0 <= i < |a| && a[i] == last
      ensures x in a[..i + 1]
    {
      assert a[..i + 1] == a;
    }
  }

  // ---- An app that can be dropped ----

  // Another candidate that removed one is kept, and stays so.
  ghost predicate Protected(st: Delay, x: Name) {
    exists w :: w != x && w in st.selected && w in st.kept
  }

  // Or, of the candidates `p` met so far, some removed themselves and nothing else
  // happened.
  ghost predicate OnlySelfGone(cands: set<Name>, succ: map<Name, set<Name>>, p: seq<Name>, st: Delay) {
    && (forall w :: w in cands && w !in st.kept ==> w in p && SelfLinked(w, succ))
    && (forall w :: w in st.selected ==> w !in st.kept)
    && (forall i, z :: 0 <= i < |p| && Upstream(p[i], z, cands, succ) ==> z in p[..i])
  }

  // Iterations that meet `x` first in its own set, and every other app last in its
  // own.
  ghost predicate SelfOrder(orders: Orders, x: Name) {
    forall f :: f in orders && f in orders[f] ==>
      && orders[f] != []
      && (if f == x then orders[f][0] == x
          else orders[f][|orders[f]| - 1] == f && f !in orders[f][..|orders[f]| - 1])
  }

  lemma {:induction false} SelfOrders(succ: map<Name, set<Name>>, x: Name) returns (o: Orders)
    ensures Enumerates(o, succ) && SelfOrder(o, x)
    decreases succ.Keys
  {
    hide Distinct, Names;
    if succ == map[] {
      o := map[];
    } else {
      var k :| k in succ;
      var rest := SelfOrders(succ - {k}, x);
      var e := SelfIteration(k, succ[k], x);
      o := rest[k := e];
      assert forall s :: s in rest ==> s in succ - {k} && (succ - {k})[s] == succ[s];
    }
  }

  lemma SelfIteration(k: Name, targets: set<Name>, x: Name) returns (e: seq<Name>)
    ensures Distinct(e) && Names(e) == targets
    ensures k in e ==>
              && e != []
              && (if k == x then e[0] == x else e[|e| - 1] == k && k !in e[..|e| - 1])
  {
    if k in targets && k != x {
      var before := Enumeration(targets - {k});
      NoNames(before);
      e := before + [k];
      assert e[..|e| - 1] == before;
    } else if x in targets {
      e := EnumerationFrom(targets, x);
      NoNames(e);
    } else {
      e := Enumeration(targets);
      NoNames(e);
    }
  }

  // The turn of a candidate with a target left, itself apart: it is safe.
  lemma TurnProtects(succ: map<Name, set<Name>>, f: Name, orders: Orders, st: Delay, x: Name, z: Name)
    requires Enumerates(orders, succ) && SelfOrder(orders, x) && f in succ && f != x
    requires f in st.kept && z in orders[f] && z != f && z in st.kept && z !in st.selected
    ensures Protected(DelayBy(f, orders[f], st), x)
  {
    var targets := orders[f];
    if f in targets {
      var init := targets[..|targets| - 1];
      assert targets == init + [f];
      assert z in init;
      DelayByAppend(f, init, [f], st);
      TurnSelects(f, init, st, z);
      StaysKept(f, [f], DelayBy(f, init, st), f);
    } else {
      TurnSelects(f, targets, st, z);
    }
    assert f in DelayBy(f, targets, st).selected && f in DelayBy(f, targets, st).kept;
  }

  lemma Turn(cands: set<Name>, succ: map<Name, set<Name>>, p: seq<Name>, f: Name, orders: Orders, st: Delay, x: Name)
    requires Enumerates(orders, succ) && SelfOrder(orders, x) && DelayInv(cands, st)
    requires OnlySelfGone(cands, succ, p, st) && f in cands && f !in p && f != x && x in st.kept && f !in st.selected
    requires !Upstream(f, x, cands, succ) && x in cands
    ensures var st' := if f in orders then DelayBy(f, orders[f], st) else st;
            Protected(st', x) || OnlySelfGone(cands, succ, p + [f], st')
  {
    if f in orders {
      hide OnlySelfGone, SelfOrder, Protected, Upstream;
      FoundKept(cands, succ, p, f, st);
      if z :| z in orders[f] && z != f && z in st.kept {
        UnselectedKept(cands, succ, p, st, z);
        TurnProtects(succ, f, orders, st, x, z);
      } else {
        TurnAlone(cands, succ, p, f, orders, st, x);
      }
    } else {
      NoTargets(cands, succ, p, f);
    }
  }

  lemma FoundKept(cands: set<Name>, succ: map<Name, set<Name>>, p: seq<Name>, f: Name, st: Delay)
    requires OnlySelfGone(cands, succ, p, st) && f in cands && f !in p
    ensures f in st.kept
  {
  }

  lemma UnselectedKept(cands: set<Name>, succ: map<Name, set<Name>>, p: seq<Name>, st: Delay, z: Name)
    requires OnlySelfGone(cands, succ, p, st) && z in st.kept
    ensures z !in st.selected
  {
  }

  // The turn of a candidate without such a target: it removes itself, if anything.
  lemma TurnAlone(cands: set<Name>, succ: map<Name, set<Name>>, p: seq<Name>, f: Name, orders: Orders, st: Delay,
                  x: Name)
    requires Enumerates(orders, succ) && DelayInv(cands, st) && OnlySelfGone(cands, succ, p, st)
    requires f in cands && f !in p && f != x && x in st.kept && f in st.kept && f !in st.selected && f in orders
    requires forall z :: z in orders[f] && z != f ==> z !in st.kept
    ensures OnlySelfGone(cands, succ, p + [f], DelayBy(f, orders[f], st))
  {
    hide Upstream;
    NoNames(orders[f]);
    TwoMembers(st.kept, f, x);
    OnlyItself(f, orders[f], st);
    TargetsGone(cands, succ, p, f, orders, st);
  }

  lemma NoTargets(cands: set<Name>, succ: map<Name, set<Name>>, p: seq<Name>, f: Name)
    requires f !in succ
    requires forall i, z :: 0 <= i < |p| && Upstream(p[i], z, cands, succ) ==> z in p[..i]
    ensures forall i, z :: 0 <= i < |p + [f]| && Upstream((p + [f])[i], z, cands, succ) ==> z in (p + [f])[..i]
  {
    var q := p + [f];
    assert forall i :: 0 <= i < |p| ==> q[..i] == p[..i];
  }

  lemma TargetsGone(cands: set<Name>, succ: map<Name, set<Name>>, p: seq<Name>, f: Name, orders: Orders, st: Delay)
    requires Enumerates(orders, succ) && OnlySelfGone(cands, succ, p, st) && f in orders
    requires forall z :: z in orders[f] && z != f ==> z !in st.kept
    ensures forall i, z :: 0 <= i < |p + [f]| && Upstream((p + [f])[i], z, cands, succ) ==> z in (p + [f])[..i]
  {
    var q := p + [f];
    NoNames(orders[f]);
    assert forall i :: 0 <= i < |p| ==> q[..i] == p[..i];
    assert q[..|p|] == p;
  }

  lemma RestApart(p: seq<Name>, names: seq<Name>)
    requires Distinct(p + names) && names != []
    ensures forall g :: g in names[1..] ==> g in names && g != names[0]
  {
    forall g | g in names[1..]
      ensures g in names && g != names[0]
    {
      var k :| 1 <= k < |names| && names[k] == g;
      assert (p + names)[|p| + k] == g && (p + names)[|p|] == names[0];
    }
  }

  // The turns of all candidates in front of `x`.
  lemma {:induction false} Turns(cands: set<Name>, succ: map<Name, set<Name>>, p: seq<Name>, names: seq<Name>,
                                 orders: Orders, st: Delay, x: Name)
    requires Enumerates(orders, succ) && SelfOrder(orders, x) && DelayInv(cands, st)
    requires Distinct(p + names) && x !in names && x in cands && x in st.kept
    requires forall f :: f in names ==> f in cands && f !in st.selected && !Upstream(f, x, cands, succ)
    requires Protected(st, x) || OnlySelfGone(cands, succ, p, st)
    ensures var st' := DelayAll(names, orders, st);
            && (Protected(st', x) || OnlySelfGone(cands, succ, p + names, st'))
            && x in st'.kept && st'.selected <= st.selected + Names(names)
    decreases |names|
  {
    hide OnlySelfGone, Upstream, SelfOrder, Enumerates, DelayInv;
    if names == [] {
      assert p + names == p;
    } else {
      var f := names[0];
      var st1 := if f in orders then DelayBy(f, orders[f], st) else st;
      TurnsStep(cands, succ, p, names, orders, st, x);
      assert (p + [f]) + names[1..] == p + names;
      RestApart(p, names);
      Turns(cands, succ, p + [f], names[1..], orders, st1, x);
    }
  }

  lemma TurnsStep(cands: set<Name>, succ: map<Name, set<Name>>, p: seq<Name>, names: seq<Name>, orders: Orders,
                  st: Delay, x: Name)
    requires Enumerates(orders, succ) && SelfOrder(orders, x) && DelayInv(cands, st) && names != []
    requires Distinct(p + names) && x !in names && x in cands && x in st.kept
    requires forall f :: f in names ==> f in cands && f !in st.selected && !Upstream(f, x, cands, succ)
    requires Protected(st, x) || OnlySelfGone(cands, succ, p, st)
    ensures var f := names[0];
            var st' := if f in orders then DelayBy(f, orders[f], st) else st;
            && (Protected(st', x) || OnlySelfGone(cands, succ, p + [f], st'))
            && x in st'.kept && st'.selected <= st.selected + {f} && DelayInv(cands, st')
  {
    hide OnlySelfGone, SelfOrder, DelayInv;
    var f := names[0];
    assert f in names;
    assert f !in p by {
      assert (p + names)[|p|] == f && forall k :: 0 <= k < |p| ==> (p + names)[k] == p[k];
    }
    if f in orders {
      NoNames(orders[f]);
      assert x !in orders[f] by {
        assert x in orders[f] ==> Upstream(f, x, cands, succ);
      }
      Untouched(f, orders[f], st, x);
      DelayByKeeps(cands, f, orders[f], st);
      if Protected(st, x) {
        var w :| w != x && w in st.selected && w in st.kept;
        StaysKept(f, orders[f], st, w);
      }
    }
    if !Protected(st, x) {
      Turn(cands, succ, p, f, orders, st, x);
    }
  }

  // Where `x` is not spared, some order brings another candidate that is still
  // kept when the turn comes to `x`.
  lemma AnotherKept(sources: seq<Name>, feed: map<Name, set<Name>>, push: set<Name>, out: seq<Name>,
                    succ: map<Name, set<Name>>, cands: seq<Name>, x: Name)
    returns (a: seq<Name>, o: Name)
    requires Collected(sources, feed, push, out, cands) && x in cands
    requires !Spared(sources, feed, succ, Names(cands), x)
    ensures Collected(sources, feed, push, out, a) && o in cands && o != x
    ensures forall p, st :: p + [x] <= a && OnlySelfGone(Names(cands), succ, p, st) ==> o in st.kept
  {
    hide Collected, Earlier, FirstOfBlock;
    var all := Names(cands);
    CollectedSame(sources, feed, push, out, cands);
    o :| o in all && o != x && !(SelfLinked(o, succ) && Earlier(sources, feed, o, x) &&
           forall z :: Upstream(o, z, all, succ) ==> Earlier(sources, feed, z, o));
    NoNames(cands);
    if !SelfLinked(o, succ) {
      a := cands;
    } else if !Earlier(sources, feed, o, x) {
      a := BlockFirst(sources, feed, push, out, x);
      forall p, st | p + [x] <= a && OnlySelfGone(all, succ, p, st)
        ensures o in st.kept
      {
        CollectedSame(sources, feed, push, out, a);
        NotInFront(sources, feed, a, p, x, o);
      }
    } else {
      var z :| Upstream(o, z, all, succ) && !Earlier(sources, feed, z, o);
      a := BlockFirst(sources, feed, push, out, o);
      forall p, st | p + [x] <= a && OnlySelfGone(all, succ, p, st)
        ensures o in st.kept
      {
        CollectedSame(sources, feed, push, out, a);
        TargetBehind(sources, feed, all, succ, a, p, x, o, z, st);
      }
    }
  }

  lemma NotInFront(sources: seq<Name>, feed: map<Name, set<Name>>, a: seq<Name>, p: seq<Name>, x: Name, o: Name)
    requires FirstOfBlock(sources, feed, a, x) && p + [x] <= a && Distinct(a) && !Earlier(sources, feed, o, x)
    ensures o !in p
  {
    hide Earlier;
    forall i | 0 <= i < |p|
      ensures p[i] != o
    {
      assert a[i] == p[i] && a[..i + 1] == p[..i + 1];
      assert x !in p by {
        assert a[|p|] == x && forall k :: 0 <= k < |p| ==> a[k] == p[k];
      }
    }
  }

  lemma TargetBehind(sources: seq<Name>, feed: map<Name, set<Name>>, cands: set<Name>, succ: map<Name, set<Name>>,
                     a: seq<Name>, p: seq<Name>, x: Name, o: Name, z: Name, st: Delay)
    requires FirstOfBlock(sources, feed, a, o) && p + [x] <= a && Distinct(a)
    requires Upstream(o, z, cands, succ) && !Earlier(sources, feed, z, o) && OnlySelfGone(cands, succ, p, st)
    ensures o in st.kept
  {
    hide Earlier, Upstream;
    forall i | 0 <= i < |p|
      ensures p[i] != o
    {
      forall j | 0 <= j < i
        ensures p[i] == o ==> p[j] != z
      {
        assert a[j] == p[j] && a[i] == p[i];
        assert p[i] == o ==> o !in a[..j + 1];
      }
      assert Upstream(p[i], z, cands, succ) ==> z in p[..i];
    }
    assert Upstream(o, z, cands, succ) ==> o in cands by {
      InUpstream(o, z, cands, succ);
    }
  }

  lemma InUpstream(x: Name, y: Name, cands: set<Name>, succ: map<Name, set<Name>>)
    requires Upstream(x, y, cands, succ)
    ensures x in cands && y in cands
  {
  }

  // So `x`, linked to itself and with no other candidate upstream, is dropped.
  lemma CanDrop(sources: seq<Name>, feed: map<Name, set<Name>>, push: set<Name>, out: seq<Name>,
                succ: map<Name, set<Name>>, cands: seq<Name>, x: Name)
    returns (a: seq<Name>, orders: Orders)
    requires Collected(sources, feed, push, out, cands) && x in cands && SelfLinked(x, succ)
    requires !HasUpstream(x, Names(cands), succ) && !Spared(sources, feed, succ, Names(cands), x)
    ensures Collected(sources, feed, push, out, a) && Enumerates(orders, succ) && x !in Kept(a, orders)
  {
    hide Collected, Spared;
    var o;
    a, o := AnotherKept(sources, feed, push, out, succ, cands, x);
    orders := SelfOrders(succ, x);
    CollectedSame(sources, feed, push, out, cands);
    CollectedSame(sources, feed, push, out, a);
    assert forall y :: y in a <==> y in cands;
    var i :| 0 <= i < |a| && a[i] == x;
    var p := a[..i];
    assert a == p + [x] + a[i + 1..];
    assert p + [x] <= a;
    Dropped(Names(cands), succ, a, i, orders, x, o);
  }

  lemma Dropped(cands: set<Name>, succ: map<Name, set<Name>>, a: seq<Name>, i: nat, orders: Orders, x: Name, o: Name)
    requires Distinct(a) && Names(a) == cands && i < |a| && a[i] == x && SelfLinked(x, succ)
    requires Enumerates(orders, succ) && SelfOrder(orders, x) && !HasUpstream(x, cands, succ) && o != x
    requires forall st :: OnlySelfGone(cands, succ, a[..i], st) ==> o in st.kept
    ensures x !in Kept(a, orders)
  {
    hide OnlySelfGone, Enumerates, SelfOrder, SelfLinked, HasUpstream, DelayAll, DelayBy, Names;
    var p, rest, st := a[..i], a[i + 1..], Delay(a, {});
    assert a == p + ([x] + rest);
    DelayAllAppend(p, [x] + rest, orders, st);
    BeforeTurn(cands, succ, a, i, orders, x);
    var st' := DelayAll(p, orders, st);
    var w :| w != x && w in st'.kept;
    TwoMembers(st'.kept, x, w);
    TurnDrops(orders, succ, x, st');
    DelayAllHead(x, rest, orders, st');
    AllOnlyShrinks(rest, orders, DelayBy(x, orders[x], st'));
  }

  lemma DelayAllHead(x: Name, rest: seq<Name>, orders: Orders, st: Delay)
    ensures DelayAll([x] + rest, orders, st) ==
            DelayAll(rest, orders, if x in orders then DelayBy(x, orders[x], st) else st)
  {
    assert ([x] + rest)[1..] == rest;
  }

  lemma BeforeTurn(cands: set<Name>, succ: map<Name, set<Name>>, a: seq<Name>, i: nat, orders: Orders, x: Name)
    requires Distinct(a) && Names(a) == cands && i < |a| && a[i] == x
    requires Enumerates(orders, succ) && SelfOrder(orders, x) && !HasUpstream(x, cands, succ)
    ensures var st' := DelayAll(a[..i], orders, Delay(a, {}));
            && (Protected(st', x) || OnlySelfGone(cands, succ, a[..i], st'))
            && x in st'.kept && x !in st'.selected
  {
    hide Enumerates, SelfOrder, Protected;
    var p, st := a[..i], Delay(a, {});
    NoNames(a);
    NoNames(p);
    assert [] + p == p;
    Turns(cands, succ, [], p, orders, st, x);
  }

  lemma TurnDrops(orders: Orders, succ: map<Name, set<Name>>, x: Name, st: Delay)
    requires Enumerates(orders, succ) && SelfOrder(orders, x) && SelfLinked(x, succ)
    requires x in st.kept && x !in st.selected && |st.kept| > 1
    ensures x in orders && x !in DelayBy(x, orders[x], st).kept
  {
    NoNames(orders[x]);
    var st1 := DelayOne(x, x, st);
    DelayOnlyShrinks(x, orders[x][1..], st1);
  }

  // ---- Whole runs ----

  // No path of remaining links into push apps leads from another candidate of the
  // last round to `x`: a set closed under those links holds the others without `x`.
  ghost predicate Unfed(net: Net, r: Round, x: Name) {
    exists c :: UnfedBy(net, r, x, c)
  }

  ghost predicate UnfedBy(net: Net, r: Round, x: Name, c: set<Name>) {
    && x !in c && ClosedUnder(net, r.exhale, c)
    && (forall y :: y in r.cands && y != x ==> y in c)
  }

  // Some complete run through the last round of `t` never exhales `x`.
  ghost predicate CanLose(net: Net, t: seq<Round>, x: Name)
    requires t != []
  {
    exists u :: Loses(net, t, x, u)
  }

  ghost predicate Loses(net: Net, t: seq<Round>, x: Name, u: seq<Round>)
    requires t != []
  {
    && Complete(net, u) && |t| <= |u| && u[..|t| - 1] == t[..|t| - 1]
    && SameRound(u[|t| - 1], Final(t)) && x !in Final(u).exhale
  }

  // Outside a closed set that holds what a round exhales, nothing turns up again.
  lemma NextInside(net: Net, u: seq<Round>, k: nat, orders: Orders, c: set<Name>, x: Name)
    requires Rounds(net, u) && k < |u| - 1 && NextWith(net, u[k], u[k + 1], orders)
    requires Names(Kept(u[k].cands, orders)) <= c && ClosedUnder(net, u[k].exhale, c)
    requires x !in c && x !in u[k].exhale
    ensures Names(u[k + 1].cands) <= c && ClosedUnder(net, u[k + 1].exhale, c) && x !in u[k + 1].exhale
  {
    hide Kept, Enumerates, Collected;
    var now := Sort(Kept(u[k].cands, orders));
    PrefixInv(net, u, k);
    InvDistinct(net, u[k]);
    KeptSome(u[k].cands, orders);
    SortKeeps(Kept(u[k].cands, orders));
    NoNames(now);
    NoNames(u[k + 1].cands);
    forall y | y in u[k + 1].cands
      ensures y in c
    {
      var w :| w in now && w in Left(net, u[k].exhale) && Pushes(net, w, y);
    }
  }

  lemma {:induction false} NeverBack(net: Net, u: seq<Round>, k: nat, c: set<Name>, x: Name)
    requires Rounds(net, u) && k < |u| && Names(u[k].cands) <= c && ClosedUnder(net, u[k].exhale, c)
    requires x !in c && x !in u[k].exhale
    ensures x !in Final(u).exhale
    decreases |u| - k
  {
    hide NextWith, Kept, ClosedUnder, RoundInv;
    if k < |u| - 1 {
      var orders := RoundStep(net, u, k);
      NextInside(net, u, k, orders, c, x);
      NeverBack(net, u, k + 1, c, x);
    }
  }

  lemma NoneUpstream(net: Net, r: Round, x: Name)
    requires RoundInv(net, r) && Unfed(net, r, x) && x in r.cands
    ensures !HasUpstream(x, Names(r.cands), Left(net, r.exhale))
  {
    var c :| UnfedBy(net, r, x, c);
    NoNames(r.cands);
    forall y
      ensures !Upstream(y, x, Names(r.cands), Left(net, r.exhale))
    {
      assert y in c && y in Left(net, r.exhale) && Pushes(net, y, x) ==> x in c;
    }
  }

  // The condition under which the last round of `t` keeps `x` for certain.
  ghost predicate SparedIn(net: Net, t: seq<Round>, x: Name)
    requires t != []
  {
    var n := |t| - 1;
    Spared(SourcesAt(net, t, n), FeedAt(net, t, n), Left(net, t[n].exhale), Names(t[n].cands), x)
  }

  // A self-linked push app that only itself feeds among what is left can be lost
  // by a run through its round exactly if it is not spared. A run takes an order
  // of its own for each iteration, as the library leaves it open; `BreatheFixed`
  // has the case of one order for each set.
  lemma SelfLinkedLostExactly(net: Net, t: seq<Round>, x: Name)
    requires Rounds(net, t) && x in Final(t).cands && Linked(net, x, x) && x !in net.pull
    requires Unfed(net, Final(t), x)
    ensures Reachable(net, x)
    ensures CanLose(net, t, x) <==> !SparedIn(net, t, x)
  {
    hide NextRound, SparedIn, Unfed, Loses;
    CandidateReachable(net, t, x);
    if SparedIn(net, t, x) {
      forall u
        ensures !Loses(net, t, x, u)
      {
        SparedNotLost(net, t, x, u);
      }
    } else {
      var u := LosingRun(net, t, x);
    }
  }

  lemma CandidateReachable(net: Net, t: seq<Round>, x: Name)
    requires Rounds(net, t) && x in Final(t).cands
    ensures Reachable(net, x)
  {
    RoundsInv(net, t);
    var exhale := Final(t).exhale + [x];
    forall k | 0 <= k < |exhale|
      ensures FedBy(net, exhale[..k], exhale[k])
    {
      assert exhale[..k] == Final(t).exhale[..k];
    }
    var ps := AscendingChain(net, exhale, |exhale| - 1);
    ChainOfPositions(net, exhale, ps, |exhale| - 1);
  }

  lemma SparedNotLost(net: Net, t: seq<Round>, x: Name, u: seq<Round>)
    requires Rounds(net, t) && x in Final(t).cands && SparedIn(net, t, x)
    ensures !Loses(net, t, x, u)
  {
    hide Spared, Kept, NextRound, Initial, Discovered, Collected, RoundInv, Sort, SourcesAt, FeedAt, Left;
    var n := |t| - 1;
    if Complete(net, u) && |t| <= |u| && u[..n] == t[..n] && SameRound(u[n], Final(t)) {
      NoNames(t[n].cands);
      NoNames(u[n].cands);
      SameOrigin(net, t, u, n);
      NotLast(net, u, n);
      var orders := RoundStep(net, u, n);
      SparedStays(SourcesAt(net, t, n), FeedAt(net, t, n), net.push, t[n].exhale, Left(net, t[n].exhale),
                  u[n].cands, orders, x);
      ExhaleGrows(net, u, n + 1, |u| - 1);
      KeptInNext(net, u, n, orders, x);
    }
  }

  // Runs that agree up to a round have its candidates from the same sources.
  lemma SameOrigin(net: Net, t: seq<Round>, u: seq<Round>, n: nat)
    requires Rounds(net, u) && n < |t| && n < |u| && u[..n] == t[..n] && u[n].exhale == t[n].exhale
    ensures Collected(SourcesAt(net, t, n), FeedAt(net, t, n), net.push, t[n].exhale, u[n].cands)
  {
    hide Collected, Left, Rounds;
    RoundCollected(net, u, n);
    assert n > 0 ==> u[n - 1] == u[..n][n - 1] == t[n - 1];
  }

  lemma NotLast(net: Net, u: seq<Round>, n: nat)
    requires Complete(net, u) && n < |u| && u[n].cands != []
    ensures Rounds(net, u) && n < |u| - 1
  {
    hide Rounds;
  }

  lemma KeptInNext(net: Net, u: seq<Round>, n: nat, orders: Orders, x: Name)
    requires n < |u| - 1 && |u[n].exhale| <= |u[n + 1].exhale| && x in Kept(u[n].cands, orders)
    requires Names(u[n + 1].exhale[|u[n].exhale|..]) == Names(Kept(u[n].cands, orders))
    ensures x in u[n + 1].exhale
  {
    hide Kept;
    NoNames(Kept(u[n].cands, orders));
    NoNames(u[n + 1].exhale[|u[n].exhale|..]);
  }

  lemma LosingRun(net: Net, t: seq<Round>, x: Name) returns (u: seq<Round>)
    requires Rounds(net, t) && x in Final(t).cands && Linked(net, x, x) && x !in net.pull
    requires Unfed(net, Final(t), x) && !SparedIn(net, t, x)
    ensures Loses(net, t, x, u)
  {
    hide Spared, Kept, NextRound, Collected, Sort, HasUpstream, Fed, FedBy;
    var n := |t| - 1;
    var succ := Left(net, t[n].exhale);
    RoundsInv(net, t);
    RoundCollected(net, t, n);
    NoneUpstream(net, t[n], x);
    var a, orders := CanDrop(SourcesAt(net, t, n), FeedAt(net, t, n), net.push, t[n].exhale, succ, t[n].cands, x);
    var v := Recollected(net, t, n, a);
    NoNames(a);
    NoNames(t[n].cands);
    u := Branched(net, v, orders);
    LosesIt(net, t, x, v, u, orders);
  }

  lemma LosesIt(net: Net, t: seq<Round>, x: Name, v: seq<Round>, u: seq<Round>, orders: Orders)
    requires Rounds(net, t) && x in Final(t).cands && Unfed(net, Final(t), x)
    requires Rounds(net, v) && v == t[..|t| - 1] + [Round(Final(t).exhale, Final(v).cands)]
    requires Names(Final(v).cands) == Names(Final(t).cands) && x !in Kept(Final(v).cands, orders)
    requires Complete(net, u) && v <= u && |v| < |u| && Enumerates(orders, Left(net, Final(v).exhale))
    requires u[|v|].exhale == Final(v).exhale + Sort(Kept(Final(v).cands, orders))
    ensures Loses(net, t, x, u)
  {
    hide Kept, NextRound, Collected, Sort, Enumerates, Fed, FedBy, ClosedUnder;
    var n := |t| - 1;
    var c :| UnfedBy(net, Final(t), x, c);
    assert u[n] == v[n] && u[..n] == t[..n];
    RoundsInv(net, v);
    var taken := RoundStep(net, u, n);
    var now := u[n + 1].exhale[|u[n].exhale|..];
    assert now == Sort(Kept(Final(v).cands, orders));
    KeptSome(Final(v).cands, orders);
    SortKeeps(Kept(Final(v).cands, orders));
    NoNames(now);
    NoNames(Kept(Final(v).cands, orders));
    NoNames(Final(v).cands);
    NoNames(Final(t).cands);
    NextInside(net, u, n, taken, c, x);
    NeverBack(net, u, n + 1, c, x);
  }

  // In particular: if no candidate comes from a source before those of `x`, it can
  // be lost exactly if it is not alone.
  lemma LostUnlessAlone(net: Net, t: seq<Round>, x: Name)
    requires Rounds(net, t) && x in Final(t).cands && Linked(net, x, x) && x !in net.pull
    requires Unfed(net, Final(t), x)
    requires var n := |t| - 1;
             forall o :: o in t[n].cands ==> !Earlier(SourcesAt(net, t, n), FeedAt(net, t, n), o, x)
    ensures CanLose(net, t, x) <==> Names(Final(t).cands) != {x}
  {
    hide Earlier, NextRound, Unfed, CanLose;
    SelfLinkedLostExactly(net, t, x);
    NoNames(Final(t).cands);
    if Names(Final(t).cands) != {x} {
      var o :| o in Final(t).cands && o != x;
    }
  }
}
