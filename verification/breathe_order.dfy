// The push order that `compute_breathe_order` in src/engine.rs works out: one
// delay pass, rounds of it, and what every run ends with, whatever order the
// hash tables are iterated in.
module BreatheOrder {
  import opened Sets

  type Name = string

  // ---- Names in sequences ----

  function Names(s: seq<Name>): set<Name> { set x | x in s }

  ghost predicate Distinct(s: seq<Name>) {
    forall i, j :: 0 <= i < j < |s| ==> s[i] != s[j]
  }

  lemma DistinctAppend(s: seq<Name>, t: seq<Name>)
    requires Distinct(s) && Distinct(t) && forall x :: x in t ==> x !in s
    ensures Distinct(s + t)
  {
    forall i, j | 0 <= i < j < |s + t|
      ensures (s + t)[i] != (s + t)[j]
    {
      if i < |s| <= j {
        assert (s + t)[j] in t;
      }
    }
  }

  function Without(s: seq<Name>, x: Name): (r: seq<Name>)
    ensures forall y :: y in r <==> y in s && y != x
  {
    if s == [] then [] else (if s[0] == x then [] else [s[0]]) + Without(s[1..], x)
  }

  lemma {:induction false} WithoutOne(s: seq<Name>, x: Name)
    requires Distinct(s)
    ensures Distinct(Without(s, x))
    ensures |Without(s, x)| == if x in s then |s| - 1 else |s|
  {
    if s != [] {
      WithoutOne(s[1..], x);
      assert s[0] !in s[1..];
    }
  }

  lemma NamesPush(s: seq<Name>, x: Name)
    ensures Names(s + [x]) == Names(s) + {x}
    ensures Distinct(s) && x !in s ==> Distinct(s + [x])
  {
  }

  // ---- Sorting ----

  // The order of strings.
  predicate Le(a: Name, b: Name) {
    a == [] || (b != [] && (a[0] < b[0] || (a[0] == b[0] && Le(a[1..], b[1..]))))
  }

  // The names agree up to `k`, where the first has the smaller character.
  ghost predicate LessAt(a: Name, b: Name, k: nat) {
    k < |a| && k < |b| && a[..k] == b[..k] && a[k] < b[k]
  }

  lemma LessLater(a: Name, b: Name, k: nat)
    requires a != [] && b != []
    ensures LessAt(a, b, k + 1) <==> a[0] == b[0] && LessAt(a[1..], b[1..], k)
    ensures a <= b <==> a[0] == b[0] && a[1..] <= b[1..]
  {
    assert a == [a[0]] + a[1..] && b == [b[0]] + b[1..];
    if k < |a| && k < |b| {
      assert a[..k + 1] == [a[0]] + a[1..][..k] && b[..k + 1] == [b[0]] + b[1..][..k];
      assert a[..k + 1] == b[..k + 1] ==> a[..k + 1][0] == b[..k + 1][0];
      assert a[..k + 1] == b[..k + 1] ==> a[..k + 1][1..] == b[..k + 1][1..];
    }
  }

  // A prefix comes first, and otherwise the first character that differs decides.
  lemma {:induction false} LeIs(a: Name, b: Name)
    ensures Le(a, b) <==> a <= b || exists k: nat :: LessAt(a, b, k)
  {
    if a != [] && b != [] {
      LeIs(a[1..], b[1..]);
      LessLater(a, b, 0);
      if a[0] < b[0] {
        assert LessAt(a, b, 0);
      } else if k: nat :| LessAt(a, b, k) {
        LessLater(a, b, k - 1);
      } else if k: nat :| LessAt(a[1..], b[1..], k) {
        LessLater(a, b, k);
      }
    }
  }

  lemma {:induction false} LeTotal(a: Name, b: Name)
    ensures Le(a, b) || Le(b, a)
  {
    if a != [] && b != [] {
      LeTotal(a[1..], b[1..]);
    }
  }

  lemma {:induction false} LeAntisymmetric(a: Name, b: Name)
    requires Le(a, b) && Le(b, a)
    ensures a == b
  {
    if a != [] && b != [] {
      LeAntisymmetric(a[1..], b[1..]);
      assert a == [a[0]] + a[1..] && b == [b[0]] + b[1..];
    }
  }

  lemma {:induction false} LeTransitive(a: Name, b: Name, c: Name)
    requires Le(a, b) && Le(b, c)
    ensures Le(a, c)
  {
    if a != [] && b != [] && c != [] && a[0] == b[0] == c[0] {
      LeTransitive(a[1..], b[1..], c[1..]);
    }
  }

  ghost predicate Sorted(s: seq<Name>) {
    forall i, j :: 0 <= i < j < |s| ==> Le(s[i], s[j])
  }

  function Insert(x: Name, s: seq<Name>): seq<Name> {
    if s == [] || Le(x, s[0]) then [x] + s else [s[0]] + Insert(x, s[1..])
  }

  function Sort(s: seq<Name>): seq<Name> {
    if s == [] then [] else Insert(s[0], Sort(s[1..]))
  }

  lemma {:induction false} InsertSorts(x: Name, s: seq<Name>)
    requires Sorted(s) && Distinct(s) && x !in s
    ensures Sorted(Insert(x, s)) && Distinct(Insert(x, s)) && |Insert(x, s)| == |s| + 1
    ensures forall y :: y in Insert(x, s) <==> y == x || y in s
  {
    if s != [] {
      if Le(x, s[0]) {
        forall j | 0 <= j < |s|
          ensures Le(x, s[j])
        {
          if j > 0 {
            LeTransitive(x, s[0], s[j]);
          }
        }
      } else {
        LeTotal(x, s[0]);
        InsertSorts(x, s[1..]);
        var r := Insert(x, s[1..]);
        forall j | 0 <= j < |r|
          ensures Le(s[0], r[j]) && r[j] != s[0]
        {
          assert r[j] == x || r[j] in s[1..];
        }
      }
    }
  }

  lemma {:induction false} SortKeeps(s: seq<Name>)
    requires Distinct(s)
    ensures Sorted(Sort(s)) && Distinct(Sort(s)) && |Sort(s)| == |s|
    ensures Names(Sort(s)) == Names(s)
  {
    if s != [] {
      SortKeeps(s[1..]);
      assert forall y :: y in s[1..] <==> y in Names(s[1..]);
      assert forall y :: y in Sort(s[1..]) <==> y in Names(Sort(s[1..]));
      assert s[0] !in s[1..];
      InsertSorts(s[0], Sort(s[1..]));
    }
  }

  // Sorting forgets the order it was given.
  lemma {:induction false} SortedUnique(s: seq<Name>, t: seq<Name>)
    requires Sorted(s) && Sorted(t) && Distinct(s) && Distinct(t) && Names(s) == Names(t)
    ensures s == t
  {
    hide Le, Names;
    NoNames(s);
    NoNames(t);
    if s != [] {
      FirstIsLeast(s, t[0]);
      FirstIsLeast(t, s[0]);
      LeAntisymmetric(s[0], t[0]);
      TailNames(s);
      TailNames(t);
      SortedUnique(s[1..], t[1..]);
      assert s == [s[0]] + s[1..] && t == [t[0]] + t[1..];
    }
  }

  lemma TailNames(s: seq<Name>)
    requires Distinct(s) && s != []
    ensures s[0] in Names(s) && Names(s[1..]) == Names(s) - {s[0]}
  {
    assert s == [s[0]] + s[1..];
    forall x | x in s && x != s[0]
      ensures x in s[1..]
    {
      var k :| 0 <= k < |s| && s[k] == x;
      assert s[1..][k - 1] == x;
    }
  }

  lemma NoNames(s: seq<Name>)
    ensures Names(s) == {} <==> s == []
    ensures forall x :: x in s <==> x in Names(s)
  {
    if s != [] {
      assert s[0] in Names(s);
    }
  }

  lemma FirstIsLeast(s: seq<Name>, x: Name)
    requires Sorted(s) && x in Names(s)
    ensures Le(s[0], x)
  {
    LeTotal(x, x);
  }

  // ---- The delay pass ----

  // In which order each successor set is iterated.
  type Orders = map<Name, seq<Name>>

  ghost predicate Enumerates(orders: Orders, succ: map<Name, set<Name>>) {
    && orders.Keys == succ.Keys
    && (forall x :: x in orders ==> Distinct(orders[x]) && Names(orders[x]) == succ[x])
  }

  // The candidates still in the round, and those that delayed another one.
  datatype Delay = Delay(kept: seq<Name>, selected: set<Name>)

  // One look at one successor of `name`.
  function DelayOne(name: Name, target: Name, st: Delay): Delay {
    if target !in st.selected && target in st.kept && |st.kept| > 1
    then Delay(Without(st.kept, target), st.selected + {name})
    else st
  }

  function DelayBy(name: Name, targets: seq<Name>, st: Delay): Delay {
    if targets == [] then st else DelayBy(name, targets[1..], DelayOne(name, targets[0], st))
  }

  // The pass goes over a copy of the candidates, delayed ones included.
  function DelayAll(names: seq<Name>, orders: Orders, st: Delay): Delay {
    if names == [] then st
    else DelayAll(names[1..], orders,
                  if names[0] in orders then DelayBy(names[0], orders[names[0]], st) else st)
  }

  function Kept(cands: seq<Name>, orders: Orders): seq<Name> {
    DelayAll(cands, orders, Delay(cands, {})).kept
  }

  // No candidate is linked to itself.
  ghost predicate NoSelf(cands: set<Name>, succ: map<Name, set<Name>>) {
    forall x :: x in cands && x in succ ==> x !in succ[x]
  }

  ghost predicate SubsetOf(part: seq<Name>, cands: set<Name>) {
    forall x :: x in part ==> x in cands
  }

  // `c` is closed under links from candidate to candidate.
  ghost predicate ClosedWithin(c: set<Name>, cands: set<Name>, succ: map<Name, set<Name>>) {
    forall x, y :: x in c && x in cands && x in succ && y in succ[x] && y in cands ==> y in c
  }

  ghost predicate HoldsRoots(c: set<Name>, st: Delay) {
    forall x :: x in st.selected && x in st.kept ==> x in c
  }

  ghost predicate HoldsDelayed(c: set<Name>, cands: set<Name>, st: Delay) {
    forall x :: x in cands && x !in st.kept ==> x in c
  }

  // Every delayed candidate is reachable, from candidate to candidate, from one
  // that is selected and kept: it lies in every closed set that holds those.
  ghost predicate Rooted(cands: set<Name>, succ: map<Name, set<Name>>, st: Delay) {
    forall c :: ClosedWithin(c, cands, succ) && HoldsRoots(c, st) ==> HoldsDelayed(c, cands, st)
  }

  ghost predicate DelayInv(cands: set<Name>, st: Delay) {
    Distinct(st.kept) && st.kept != [] && SubsetOf(st.kept, cands)
  }

  lemma DelayOneKeeps(cands: set<Name>, name: Name, target: Name, st: Delay)
    requires DelayInv(cands, st)
    ensures DelayInv(cands, DelayOne(name, target, st))
  {
    WithoutOne(st.kept, target);
  }

  lemma DelayOneRooted(cands: set<Name>, succ: map<Name, set<Name>>, name: Name, target: Name, st: Delay)
    requires Rooted(cands, succ, st) && NoSelf(cands, succ)
    requires name in cands && name in succ && target in succ[name] && SubsetOf(st.kept, cands)
    ensures Rooted(cands, succ, DelayOne(name, target, st))
  {
    var st' := DelayOne(name, target, st);
    forall c | ClosedWithin(c, cands, succ) && HoldsRoots(c, st')
      ensures HoldsDelayed(c, cands, st')
    {
      assert HoldsRoots(c, st);
      if st' != st {
        assert name in c;
        assert target in c;
      }
    }
  }

  lemma {:induction false} DelayByKeeps(cands: set<Name>, name: Name, targets: seq<Name>, st: Delay)
    requires DelayInv(cands, st)
    ensures DelayInv(cands, DelayBy(name, targets, st))
  {
    if targets != [] {
      DelayOneKeeps(cands, name, targets[0], st);
      DelayByKeeps(cands, name, targets[1..], DelayOne(name, targets[0], st));
    }
  }

  lemma {:induction false} DelayByRooted(cands: set<Name>, succ: map<Name, set<Name>>, name: Name,
                                         targets: seq<Name>, st: Delay)
    requires Rooted(cands, succ, st) && NoSelf(cands, succ) && DelayInv(cands, st)
    requires name in cands && name in succ && SubsetOf(targets, succ[name])
    ensures Rooted(cands, succ, DelayBy(name, targets, st))
  {
    hide Rooted;
    if targets != [] {
      DelayOneKeeps(cands, name, targets[0], st);
      DelayOneRooted(cands, succ, name, targets[0], st);
      DelayByRooted(cands, succ, name, targets[1..], DelayOne(name, targets[0], st));
    }
  }

  lemma {:induction false} DelayAllKeeps(cands: set<Name>, names: seq<Name>, orders: Orders, st: Delay)
    requires DelayInv(cands, st)
    ensures DelayInv(cands, DelayAll(names, orders, st))
  {
    hide DelayInv;
    if names != [] {
      if names[0] in orders {
        DelayByKeeps(cands, names[0], orders[names[0]], st);
        DelayAllKeeps(cands, names[1..], orders, DelayBy(names[0], orders[names[0]], st));
      } else {
        DelayAllKeeps(cands, names[1..], orders, st);
      }
    }
  }

  lemma {:induction false} DelayAllRooted(cands: set<Name>, succ: map<Name, set<Name>>,
                                          names: seq<Name>, orders: Orders, st: Delay)
    requires Rooted(cands, succ, st) && NoSelf(cands, succ) && DelayInv(cands, st)
    requires SubsetOf(names, cands) && Enumerates(orders, succ)
    ensures Rooted(cands, succ, DelayAll(names, orders, st))
  {
    hide Rooted, DelayInv, NoSelf;
    if names != [] {
      var x := names[0];
      assert x in cands;
      if x in orders {
        assert SubsetOf(orders[x], succ[x]) by {
          assert forall y :: y in orders[x] ==> y in Names(orders[x]);
        }
        DelayByKeeps(cands, x, orders[x], st);
        DelayByRooted(cands, succ, x, orders[x], st);
        DelayAllRooted(cands, succ, names[1..], orders, DelayBy(x, orders[x], st));
      } else {
        DelayAllRooted(cands, succ, names[1..], orders, st);
      }
    }
  }

  // A round keeps some of its candidates, each once.
  lemma KeptSome(cands: seq<Name>, orders: Orders)
    requires Distinct(cands) && cands != []
    ensures Distinct(Kept(cands, orders)) && Kept(cands, orders) != []
    ensures SubsetOf(Kept(cands, orders), Names(cands))
  {
    DelayAllKeeps(Names(cands), cands, orders, Delay(cands, {}));
  }

  // Whoever follows links from the kept candidates finds the delayed ones again.
  lemma KeptLeadsToAll(cands: seq<Name>, succ: map<Name, set<Name>>, orders: Orders, c: set<Name>)
    requires Distinct(cands) && cands != [] && NoSelf(Names(cands), succ) && Enumerates(orders, succ)
    requires ClosedWithin(c, Names(cands), succ) && Names(Kept(cands, orders)) <= c
    ensures Names(cands) <= c
  {
    var st := Delay(cands, {});
    DelayAllKeeps(Names(cands), cands, orders, st);
    assert Rooted(Names(cands), succ, st) by {
      forall c' | ClosedWithin(c', Names(cands), succ) && HoldsRoots(c', st)
        ensures HoldsDelayed(c', Names(cands), st)
      {
      }
    }
    DelayAllRooted(Names(cands), succ, cands, orders, st);
    var st' := DelayAll(cands, orders, st);
    assert forall x :: x in st'.kept ==> x in Names(st'.kept);
    assert HoldsRoots(c, st');
    assert HoldsDelayed(c, Names(cands), st');
  }

  // ---- More about the pass ----

  lemma TwoMembers(s: seq<Name>, x: Name, y: Name)
    ensures x in s && y in s && x != y ==> |s| > 1
  {
  }

  lemma {:induction false} DelayOnlyShrinks(name: Name, targets: seq<Name>, st: Delay)
    ensures forall y :: y in DelayBy(name, targets, st).kept ==> y in st.kept
  {
    if targets != [] {
      DelayOnlyShrinks(name, targets[1..], DelayOne(name, targets[0], st));
    }
  }

  // Some enumeration of a set, and one that starts with a given element.
  lemma Enumeration(s: set<Name>) returns (r: seq<Name>)
    ensures Distinct(r) && Names(r) == s
  {
    r := Enumerated(s);
  }

  lemma EnumerationFrom(s: set<Name>, x: Name) returns (r: seq<Name>)
    requires x in s
    ensures Distinct(r) && Names(r) == s && r[0] == x
  {
    var rest := Enumeration(s - {x});
    NoNames(rest);
    r := [x] + rest;
  }

  lemma {:induction false} OrdersFor(succ: map<Name, set<Name>>) returns (o: Orders)
    ensures Enumerates(o, succ)
    decreases succ.Keys
  {
    if succ == map[] {
      o := map[];
    } else {
      var k :| k in succ;
      var rest := OrdersFor(succ - {k});
      var e := Enumeration(succ[k]);
      o := rest[k := e];
    }
  }

  // What is selected and kept, or gone, stays so for the rest of the pass.
  lemma {:induction false} StaysKept(name: Name, targets: seq<Name>, st: Delay, y: Name)
    requires y in st.selected && y in st.kept
    ensures y in DelayBy(name, targets, st).selected && y in DelayBy(name, targets, st).kept
  {
    if targets != [] {
      StaysKept(name, targets[1..], DelayOne(name, targets[0], st), y);
    }
  }

  lemma {:induction false} AllStaysKept(names: seq<Name>, orders: Orders, st: Delay, y: Name)
    requires y in st.selected && y in st.kept
    ensures y in DelayAll(names, orders, st).selected && y in DelayAll(names, orders, st).kept
  {
    if names != [] {
      if names[0] in orders {
        StaysKept(names[0], orders[names[0]], st, y);
        AllStaysKept(names[1..], orders, DelayBy(names[0], orders[names[0]], st), y);
      } else {
        AllStaysKept(names[1..], orders, st, y);
      }
    }
  }

  lemma {:induction false} AllOnlyShrinks(names: seq<Name>, orders: Orders, st: Delay)
    ensures forall y :: y in DelayAll(names, orders, st).kept ==> y in st.kept
  {
    if names != [] {
      if names[0] in orders {
        DelayOnlyShrinks(names[0], orders[names[0]], st);
        AllOnlyShrinks(names[1..], orders, DelayBy(names[0], orders[names[0]], st));
      } else {
        AllOnlyShrinks(names[1..], orders, st);
      }
    }
  }

  // The last candidate left is never delayed.
  lemma {:induction false} AloneStays(x: Name, name: Name, targets: seq<Name>, st: Delay)
    requires st.kept == [x]
    ensures DelayBy(name, targets, st) == st
  {
    if targets != [] {
      AloneStays(x, name, targets[1..], st);
    }
  }

  // ---- Collecting candidates ----

  // The successors of one app, appended in the order in which its set is
  // iterated: those that push, are not `out` and not listed yet.
  function AddFrom(listed: seq<Name>, targets: seq<Name>, push: set<Name>, out: seq<Name>): seq<Name> {
    if targets == [] then listed
    else
      var before := AddFrom(listed, targets[..|targets| - 1], push, out);
      var y := targets[|targets| - 1];
      if y in push && y !in out && y !in before then before + [y] else before
  }

  // The candidates that some apps bring in, app by app. Only the order within
  // one set of successors is left to chance.
  function Collect(sources: seq<Name>, orders: Orders, push: set<Name>, out: seq<Name>): seq<Name> {
    if sources == [] then []
    else
      var before := Collect(sources[..|sources| - 1], orders, push, out);
      var x := sources[|sources| - 1];
      if x in orders then AddFrom(before, orders[x], push, out) else before
  }

  lemma {:induction false} AddFromHolds(listed: seq<Name>, targets: seq<Name>, push: set<Name>, out: seq<Name>)
    requires Distinct(listed)
    ensures Distinct(AddFrom(listed, targets, push, out)) && listed <= AddFrom(listed, targets, push, out)
    ensures forall y :: y in AddFrom(listed, targets, push, out) <==>
              y in listed || (y in targets && y in push && y !in out)
  {
    if targets != [] {
      AddFromHolds(listed, targets[..|targets| - 1], push, out);
      assert targets == targets[..|targets| - 1] + [targets[|targets| - 1]];
    }
  }

  // An app that brings in a candidate.
  ghost predicate Brings(x: Name, y: Name, succ: map<Name, set<Name>>) {
    x in succ && y in succ[x]
  }

  lemma {:induction false} CollectHolds(sources: seq<Name>, orders: Orders, succ: map<Name, set<Name>>,
                                        push: set<Name>, out: seq<Name>)
    requires Enumerates(orders, succ)
    ensures Distinct(Collect(sources, orders, push, out))
    ensures forall y :: y in Collect(sources, orders, push, out) <==>
              y in push && y !in out && exists x :: x in sources && Brings(x, y, succ)
  {
    if sources != [] {
      var init, x := sources[..|sources| - 1], sources[|sources| - 1];
      CollectHolds(init, orders, succ, push, out);
      assert sources == init + [x];
      assert x in sources && forall z :: z in sources <==> z in init || z == x;
      if x in orders {
        AddFromHolds(Collect(init, orders, push, out), orders[x], push, out);
        NoNames(orders[x]);
      }
      forall y
        ensures y in Collect(sources, orders, push, out) <==>
                  y in push && y !in out && exists z :: z in sources && Brings(z, y, succ)
      {
        if z :| z in sources && Brings(z, y, succ) {
          assert z == x || z in init;
        }
      }
    }
  }

  lemma ListingExists(s: set<Name>)
    ensures exists r :: Sorted(r) && Distinct(r) && Names(r) == s
  {
    var e := Enumeration(s);
    SortKeeps(e);
  }

  // A set of names in order.
  ghost function Listing(s: set<Name>): (r: seq<Name>)
    ensures Sorted(r) && Distinct(r) && Names(r) == s
  {
    ListingExists(s);
    var r :| Sorted(r) && Distinct(r) && Names(r) == s;
    r
  }

  // ---- The app network ----

  // The apps that can pull, those that can push, and the links between apps.
  datatype Net = Net(pull: set<Name>, push: set<Name>, succ: map<Name, set<Name>>)

  ghost predicate Linked(net: Net, x: Name, y: Name) {
    x in net.succ && y in net.succ[x]
  }

  // A link a packet can travel on within a breath: into an app that pushes.
  ghost predicate Pushes(net: Net, x: Name, y: Name) {
    Linked(net, x, y) && y in net.push
  }

  // Where packets get from a pull app along links into push apps.
  ghost predicate Chain(net: Net, path: seq<Name>) {
    && |path| >= 2 && path[0] in net.pull
    && (forall i :: 0 <= i < |path| - 1 ==> Pushes(net, path[i], path[i + 1]))
  }

  ghost predicate Reachable(net: Net, x: Name) {
    exists path :: Chain(net, path) && path[|path| - 1] == x
  }

  // ---- Rounds ----

  // What is exhaled so far, and the candidates for the next round.
  datatype Round = Round(exhale: seq<Name>, cands: seq<Name>)

  // The successor map without the apps already dealt with.
  function Left(net: Net, exhale: seq<Name>): map<Name, set<Name>> {
    map x | x in net.succ && x !in net.pull && x !in exhale :: net.succ[x]
  }

  // The first candidates: the push apps downstream of the pull apps, each once,
  // in the order in which the pull apps bring them in.
  ghost predicate Initial(net: Net, cands: seq<Name>) {
    && Distinct(cands)
    && (forall y :: y in cands <==> exists x :: x in net.pull && Pushes(net, x, y))
    && Collected(Listing(net.pull), net.succ, net.push, [], cands)
  }

  // `cands` is what the sources bring in, for some iteration order.
  ghost predicate Collected(sources: seq<Name>, succ: map<Name, set<Name>>, push: set<Name>, out: seq<Name>,
                            cands: seq<Name>) {
    exists orders :: Enumerates(orders, succ) && cands == Collect(sources, orders, push, out)
  }

  // The candidates of the next round: push apps downstream of what this round
  // exhaled, not exhaled yet, in the order in which those bring them in.
  ghost predicate Discovered(net: Net, before: seq<Name>, now: seq<Name>, cands: seq<Name>) {
    && Distinct(cands)
    && (forall y :: y in cands <==>
          y !in before + now && exists x :: x in now && x in Left(net, before) && Pushes(net, x, y))
    && Collected(now, Left(net, before), net.push, before + now, cands)
  }

  ghost predicate NextRound(net: Net, a: Round, b: Round) {
    exists orders :: NextWith(net, a, b, orders)
  }

  ghost predicate NextWith(net: Net, a: Round, b: Round, orders: Orders) {
    && a.cands != [] && Enumerates(orders, Left(net, a.exhale))
    && b.exhale == a.exhale + Sort(Kept(a.cands, orders))
    && Discovered(net, a.exhale, Sort(Kept(a.cands, orders)), b.cands)
  }

  // The rounds of a run so far.
  ghost predicate Rounds(net: Net, t: seq<Round>) {
    && t != [] && t[0].exhale == [] && Initial(net, t[0].cands)
    && (forall i :: 0 <= i < |t| - 1 ==> NextRound(net, t[i], t[i + 1]))
  }

  function Final(t: seq<Round>): Round
    requires t != []
  {
    t[|t| - 1]
  }

  ghost predicate Complete(net: Net, t: seq<Round>) {
    Rounds(net, t) && Final(t).cands == []
  }

  lemma CollectedInitial(net: Net, orders: Orders)
    requires Enumerates(orders, net.succ)
    ensures Initial(net, Collect(Listing(net.pull), orders, net.push, []))
  {
    var sources := Listing(net.pull);
    CollectHolds(sources, orders, net.succ, net.push, []);
    NoNames(sources);
    forall y
      ensures (exists x :: x in sources && Brings(x, y, net.succ)) && y in net.push <==>
              exists x :: x in net.pull && Pushes(net, x, y)
    {
      if x :| x in sources && Brings(x, y, net.succ) {
        assert y in net.push ==> Pushes(net, x, y);
      }
      if x :| x in net.pull && Pushes(net, x, y) {
        assert Brings(x, y, net.succ);
      }
    }
  }

  lemma CollectedNext(net: Net, before: seq<Name>, now: seq<Name>, orders: Orders)
    requires Enumerates(orders, Left(net, before))
    ensures Discovered(net, before, now, Collect(now, orders, net.push, before + now))
  {
    var succ := Left(net, before);
    CollectHolds(now, orders, succ, net.push, before + now);
    forall y
      ensures (exists x :: x in now && Brings(x, y, succ)) && y in net.push <==>
              exists x :: x in now && x in succ && Pushes(net, x, y)
    {
      if x :| x in now && Brings(x, y, succ) {
        assert y in net.push ==> Pushes(net, x, y);
      }
      if x :| x in now && x in succ && Pushes(net, x, y) {
        assert Brings(x, y, succ);
      }
    }
  }

  // ---- What every round keeps ----

  ghost predicate AllPush(net: Net, s: seq<Name>) {
    forall x :: x in s ==> x in net.push
  }

  // The app at each position gets packets from a pull app or from an app at an
  // earlier position.
  ghost predicate FedBy(net: Net, exhale: seq<Name>, y: Name) {
    || (exists x :: x in net.pull && Pushes(net, x, y))
    || (exists j :: 0 <= j < |exhale| && Pushes(net, exhale[j], y))
  }

  ghost predicate Fed(net: Net, exhale: seq<Name>) {
    forall k :: 0 <= k < |exhale| ==> FedBy(net, exhale[..k], exhale[k])
  }

  ghost predicate RoundInv(net: Net, r: Round) {
    && Distinct(r.exhale) && Distinct(r.cands)
    && (forall x :: x in r.cands ==> x !in r.exhale)
    && AllPush(net, r.exhale) && AllPush(net, r.cands)
    && Fed(net, r.exhale) && (forall y :: y in r.cands ==> FedBy(net, r.exhale, y))
  }

  lemma InitialInv(net: Net, r: Round)
    requires r.exhale == [] && Initial(net, r.cands)
    ensures RoundInv(net, r)
  {
    hide Collected;
  }

  lemma {:induction false} RoundsInv(net: Net, t: seq<Round>)
    requires Rounds(net, t)
    ensures RoundInv(net, Final(t))
  {
    hide NextRound, RoundInv, Initial;
    var last := |t| - 1;
    if last == 0 {
      InitialInv(net, t[0]);
    } else {
      assert NextRound(net, t[last - 1], t[last]);
      assert forall i :: 0 <= i < last - 1 ==> NextRound(net, t[..last][i], t[..last][i + 1]);
      RoundsInv(net, t[..last]);
      NextRoundInv(net, t[last - 1], t[last]);
    }
  }

  lemma NextRoundInv(net: Net, a: Round, b: Round)
    requires RoundInv(net, a) && NextRound(net, a, b)
    ensures RoundInv(net, b) && |b.exhale| > |a.exhale| && a.exhale <= b.exhale
  {
    hide Fed, FedBy;
    var orders :| NextWith(net, a, b, orders);
    var now := Sort(Kept(a.cands, orders));
    KeptSome(a.cands, orders);
    SortKeeps(Kept(a.cands, orders));
    NoNames(Kept(a.cands, orders));
    NoNames(now);
    NoNames(a.cands);
    FedMore(net, a.exhale, now, a.cands);
    forall y | y in b.cands
      ensures FedBy(net, b.exhale, y) && y in net.push
    {
      var x :| x in now && x in Left(net, a.exhale) && Pushes(net, x, y);
      FedFrom(net, b.exhale, x, y);
    }
    DistinctAppend(a.exhale, now);
  }

  lemma FedFrom(net: Net, exhale: seq<Name>, x: Name, y: Name)
    requires x in exhale && Pushes(net, x, y)
    ensures FedBy(net, exhale, y)
  {
    var j :| 0 <= j < |exhale| && exhale[j] == x;
    assert Pushes(net, exhale[j], y);
  }

  lemma FedLonger(net: Net, s: seq<Name>, t: seq<Name>, y: Name)
    requires FedBy(net, s, y) && s <= t
    ensures FedBy(net, t, y)
  {
    if j :| 0 <= j < |s| && Pushes(net, s[j], y) {
      assert Pushes(net, t[j], y);
    }
  }

  lemma FedMore(net: Net, before: seq<Name>, now: seq<Name>, cands: seq<Name>)
    requires Fed(net, before) && forall y :: y in cands ==> FedBy(net, before, y)
    requires forall y :: y in now ==> y in cands
    ensures Fed(net, before + now)
  {
    hide FedBy;
    var all := before + now;
    forall k | 0 <= k < |all|
      ensures FedBy(net, all[..k], all[k])
    {
      if k < |before| {
        assert all[..k] == before[..k];
      } else {
        assert all[k] in now;
        FedLonger(net, before, all[..k], all[k]);
      }
    }
  }

  // ---- Every run can be brought to its end ----

  lemma {:induction false} DistinctSize(s: seq<Name>)
    requires Distinct(s)
    ensures |Names(s)| == |s|
  {
    if s != [] {
      var init := s[..|s| - 1];
      DistinctSize(init);
      assert s == init + [s[|s| - 1]];
      NamesPush(init, s[|s| - 1]);
    }
  }

  lemma SingleName(s: seq<Name>, x: Name)
    requires Distinct(s) && forall y :: y in s <==> y == x
    ensures s == [x]
  {
    DistinctSize(s);
    assert Names(s) == {x};
    assert s[0] in s;
  }

  lemma {:induction false} ExhaleBound(net: Net, s: seq<Name>)
    requires Distinct(s) && AllPush(net, s)
    ensures |s| <= |net.push|
  {
    DistinctSize(s);
    NoNames(s);
    assert Names(s) <= net.push;
    SubsetCount(Names(s), net.push);
  }

  lemma Extended(net: Net, t: seq<Round>, r: Round, orders: Orders) returns (u: seq<Round>)
    requires Rounds(net, t) && NextWith(net, Final(t), r, orders)
    ensures u == t + [r] && Rounds(net, u) && Final(u) == r
    ensures |Final(t).exhale| < |r.exhale| <= |net.push|
  {
    u := t + [r];
    RoundsInv(net, t);
    assert NextRound(net, Final(t), r);
    NextRoundInv(net, Final(t), r);
    ExhaleBound(net, r.exhale);
    forall i | 0 <= i < |u| - 1
      ensures NextRound(net, u[i], u[i + 1])
    {
      if i < |t| - 1 {
        assert NextRound(net, t[i], t[i + 1]);
      }
    }
  }

  // Any rounds so far go on to some complete run.
  lemma {:induction false} RunsOn(net: Net, t: seq<Round>) returns (u: seq<Round>)
    requires Rounds(net, t)
    ensures Complete(net, u) && t <= u
    decreases |net.push| - |Final(t).exhale|
  {
    RoundsInv(net, t);
    ExhaleBound(net, Final(t).exhale);
    u := t;
    if Final(t).cands != [] {
      var before := Final(t).exhale;
      var orders := OrdersFor(Left(net, before));
      var now := Sort(Kept(Final(t).cands, orders));
      CollectedNext(net, before, now, orders);
      var r := Round(before + now, Collect(now, orders, net.push, before + now));
      u := Extended(net, t, r, orders);
      u := RunsOn(net, u);
    }
  }

  // ---- Every exhaled app ends a chain of increasing positions ----

  ghost predicate Ascending(ps: seq<nat>) {
    forall i, j :: 0 <= i < j < |ps| ==> ps[i] < ps[j]
  }

  // Positions of `exhale` that lead from a pull app to the app at position k.
  ghost predicate LeadsTo(net: Net, exhale: seq<Name>, ps: seq<nat>, k: nat) {
    && ps != [] && ps[|ps| - 1] == k && Ascending(ps)
    && (forall i :: 0 <= i < |ps| ==> ps[i] < |exhale|)
    && (exists x :: x in net.pull && Pushes(net, x, exhale[ps[0]]))
    && (forall i :: 0 <= i < |ps| - 1 ==> Pushes(net, exhale[ps[i]], exhale[ps[i + 1]]))
  }

  lemma {:induction false} AscendingChain(net: Net, exhale: seq<Name>, k: nat) returns (ps: seq<nat>)
    requires Fed(net, exhale) && k < |exhale|
    ensures LeadsTo(net, exhale, ps, k)
  {
    assert FedBy(net, exhale[..k], exhale[k]);
    if x :| x in net.pull && Pushes(net, x, exhale[k]) {
      ps := [k];
      assert Pushes(net, x, exhale[ps[0]]);
    } else {
      var j :| 0 <= j < k && Pushes(net, exhale[..k][j], exhale[k]);
      var qs := AscendingChain(net, exhale, j);
      ps := qs + [k];
      assert ps[0] == qs[0];
      forall i | 0 <= i < |ps| - 1
        ensures Pushes(net, exhale[ps[i]], exhale[ps[i + 1]])
      {
        if i < |qs| - 1 {
          assert Pushes(net, exhale[qs[i]], exhale[qs[i + 1]]);
        }
      }
    }
  }

  // In every run a packet inhaled in a breath can reach every exhaled app in
  // that breath.
  lemma RunReachesInOrder(net: Net, t: seq<Round>, k: nat)
    requires Rounds(net, t) && k < |Final(t).exhale|
    ensures exists ps :: LeadsTo(net, Final(t).exhale, ps, k)
  {
    RoundsInv(net, t);
    var ps := AscendingChain(net, Final(t).exhale, k);
  }

  lemma ChainOfPositions(net: Net, exhale: seq<Name>, ps: seq<nat>, k: nat)
    requires LeadsTo(net, exhale, ps, k)
    ensures Reachable(net, exhale[k])
  {
    var x :| x in net.pull && Pushes(net, x, exhale[ps[0]]);
    var path := [x] + seq(|ps|, i requires 0 <= i < |ps| => exhale[ps[i]]);
    forall i | 0 <= i < |path| - 1
      ensures Pushes(net, path[i], path[i + 1])
    {
      if i > 0 {
        assert path[i] == exhale[ps[i - 1]] && path[i + 1] == exhale[ps[i - 1 + 1]];
      }
    }
    assert Chain(net, path);
  }

  // ---- Every reachable push app is exhaled ----

  // Packets can leave an app in a later round only if it pushes and its links
  // have not been dealt with, which happens for pull apps at the start.
  ghost predicate NoSelfLinks(net: Net) {
    forall x :: x in net.push && x !in net.pull ==> !Linked(net, x, x)
  }

  // `c` is closed under the links still to be followed.
  ghost predicate ClosedUnder(net: Net, exhale: seq<Name>, c: set<Name>) {
    forall x, y :: x in c && x in Left(net, exhale) && Pushes(net, x, y) ==> y in c
  }

  // The push apps that have to show up: those fed by a pull app or by what is
  // exhaled.
  ghost predicate Owes(net: Net, exhale: seq<Name>, y: Name) {
    FedBy(net, exhale, y)
  }

  // Whatever is owed is exhaled, or follows from the candidates.
  ghost predicate Covered(net: Net, r: Round) {
    forall c :: Names(r.exhale) <= c && Names(r.cands) <= c && ClosedUnder(net, r.exhale, c) ==>
      HoldsOwed(net, r.exhale, c)
  }

  ghost predicate HoldsOwed(net: Net, exhale: seq<Name>, c: set<Name>) {
    forall y :: Owes(net, exhale, y) ==> y in c
  }

  lemma InitialCovered(net: Net, r: Round)
    requires r.exhale == [] && Initial(net, r.cands)
    ensures Covered(net, r)
  {
    forall c | Names(r.exhale) <= c && Names(r.cands) <= c && ClosedUnder(net, r.exhale, c)
      ensures HoldsOwed(net, r.exhale, c)
    {
      NoNames(r.cands);
    }
  }

  lemma NextCovered(net: Net, a: Round, b: Round)
    requires RoundInv(net, a) && Covered(net, a) && NextRound(net, a, b) && NoSelfLinks(net)
    ensures Covered(net, b)
  {
    hide RoundInv, NextRound, Covered;
    forall c | Names(b.exhale) <= c && Names(b.cands) <= c && ClosedUnder(net, b.exhale, c)
      ensures HoldsOwed(net, b.exhale, c)
    {
      CoveredAgain(net, a, b, c);
    }
    assert Covered(net, b) by {
      CoveredBy(net, b);
    }
  }

  lemma CoveredBy(net: Net, r: Round)
    requires forall c :: Names(r.exhale) <= c && Names(r.cands) <= c && ClosedUnder(net, r.exhale, c) ==>
               HoldsOwed(net, r.exhale, c)
    ensures Covered(net, r)
  {
  }

  // The heart of completeness: delaying may drop a candidate, but a set closed
  // under the remaining links that holds the next round holds it again.
  lemma CoveredAgain(net: Net, a: Round, b: Round, c: set<Name>)
    requires RoundInv(net, a) && Covered(net, a) && NextRound(net, a, b) && NoSelfLinks(net)
    requires Names(b.exhale) <= c && Names(b.cands) <= c && ClosedUnder(net, b.exhale, c)
    ensures HoldsOwed(net, b.exhale, c)
  {
    var orders :| NextWith(net, a, b, orders);
    var now := Sort(Kept(a.cands, orders));
    KeptSome(a.cands, orders);
    SortKeeps(Kept(a.cands, orders));
    NoNames(a.cands);
    NoNames(b.exhale);
    NoNames(b.cands);
    NoNames(now);
    ClosedBefore(net, a, b, now, c);
    ClosedCandidates(net, a, c);
    NoSelfCandidates(net, a);
    assert Names(now) <= c;
    KeptLeadsToAll(a.cands, Left(net, a.exhale), orders, c);
    assert Names(a.exhale) <= c;
    assert HoldsOwed(net, a.exhale, c);
    forall y | Owes(net, b.exhale, y)
      ensures y in c
    {
      OwedOrNew(net, a, b, now, c, y);
    }
  }

  // Seen from the round before, `c` is closed as well.
  lemma ClosedBefore(net: Net, a: Round, b: Round, now: seq<Name>, c: set<Name>)
    requires Discovered(net, a.exhale, now, b.cands) && b.exhale == a.exhale + now
    requires Names(b.exhale) <= c && Names(b.cands) <= c && ClosedUnder(net, b.exhale, c)
    ensures ClosedUnder(net, a.exhale, c)
  {
    hide Collected;
    NoNames(b.exhale);
    NoNames(b.cands);
    forall x, y | x in c && x in Left(net, a.exhale) && Pushes(net, x, y)
      ensures y in c
    {
      if x in now {
        assert y !in b.exhale ==> y in b.cands;
      } else {
        assert x in Left(net, b.exhale);
      }
    }
  }

  lemma ClosedCandidates(net: Net, r: Round, c: set<Name>)
    requires ClosedUnder(net, r.exhale, c) && AllPush(net, r.cands)
    ensures ClosedWithin(c, Names(r.cands), Left(net, r.exhale))
  {
    NoNames(r.cands);
  }

  lemma NoSelfCandidates(net: Net, r: Round)
    requires AllPush(net, r.cands) && NoSelfLinks(net)
    ensures NoSelf(Names(r.cands), Left(net, r.exhale))
  {
    NoNames(r.cands);
  }

  lemma OwedOrNew(net: Net, a: Round, b: Round, now: seq<Name>, c: set<Name>, y: Name)
    requires b.exhale == a.exhale + now && Owes(net, b.exhale, y)
    requires HoldsOwed(net, a.exhale, c) && Names(b.exhale) <= c && ClosedUnder(net, a.exhale, c)
    requires forall x :: x in a.exhale ==> x !in now
    ensures y in c
  {
    NoNames(b.exhale);
    if exists x :: x in net.pull && Pushes(net, x, y) {
      assert Owes(net, a.exhale, y);
    } else {
      var j :| 0 <= j < |b.exhale| && Pushes(net, b.exhale[j], y);
      var x := b.exhale[j];
      if j < |a.exhale| {
        assert Pushes(net, a.exhale[j], y);
        assert Owes(net, a.exhale, y);
      } else {
        assert x in now && x !in net.pull;
        assert x in Left(net, a.exhale);
      }
    }
  }

  lemma {:induction false} RoundsCovered(net: Net, t: seq<Round>)
    requires Rounds(net, t) && NoSelfLinks(net)
    ensures Covered(net, Final(t))
  {
    hide Covered, NoSelfLinks, RoundInv, NextRound;
    var last := |t| - 1;
    if last > 0 {
      assert NextRound(net, t[last - 1], t[last]);
      assert forall i :: 0 <= i < last - 1 ==> NextRound(net, t[..last][i], t[..last][i + 1]);
      RoundsInv(net, t[..last]);
      RoundsCovered(net, t[..last]);
      NextCovered(net, t[last - 1], t[last]);
    } else {
      InitialCovered(net, t[0]);
    }
  }

  lemma {:induction false} ChainInside(net: Net, exhale: seq<Name>, path: seq<Name>)
    requires HoldsOwed(net, exhale, Names(exhale)) && Chain(net, path)
    ensures path[|path| - 1] in exhale
  {
    var last := |path| - 1;
    NoNames(exhale);
    assert Pushes(net, path[last - 1], path[last - 1 + 1]);
    if last > 1 {
      assert Chain(net, path[..last]);
      ChainInside(net, exhale, path[..last]);
      FedFrom(net, exhale, path[last - 1], path[last]);
    }
    assert Owes(net, exhale, path[last]);
  }

  // When no push app is linked to itself, every run exhales exactly the push
  // apps reachable from a pull app, each once.
  lemma RunExact(net: Net, t: seq<Round>)
    requires Complete(net, t) && NoSelfLinks(net)
    ensures Distinct(Final(t).exhale)
    ensures forall x :: x in Final(t).exhale <==> Reachable(net, x)
  {
    var r := Final(t);
    RoundsCovered(net, t);
    RunSound(net, t);
    NoNames(r.exhale);
    assert ClosedUnder(net, r.exhale, Names(r.exhale));
    assert HoldsOwed(net, r.exhale, Names(r.exhale));
    forall x | Reachable(net, x)
      ensures x in r.exhale
    {
      var path :| Chain(net, path) && path[|path| - 1] == x;
      ChainInside(net, r.exhale, path);
    }
  }

  // Even with self-links, only reachable push apps are exhaled, each once.
  lemma RunSound(net: Net, t: seq<Round>)
    requires Rounds(net, t)
    ensures Distinct(Final(t).exhale)
    ensures forall x :: x in Final(t).exhale ==> Reachable(net, x)
  {
    var exhale := Final(t).exhale;
    RoundsInv(net, t);
    forall x | x in exhale
      ensures Reachable(net, x)
    {
      var k :| 0 <= k < |exhale| && exhale[k] == x;
      var ps := AscendingChain(net, exhale, k);
      ChainOfPositions(net, exhale, ps, k);
    }
  }

  // What the push order is for: each app at most once, only apps that packets of
  // this breath can reach, and without self-links all of those.
  ghost predicate Exhaled(net: Net, exhale: seq<Name>) {
    && Distinct(exhale)
    && (forall x :: x in exhale ==> Reachable(net, x))
    && (NoSelfLinks(net) ==> forall x :: Reachable(net, x) ==> x in exhale)
  }

  lemma RunExhales(net: Net, t: seq<Round>)
    requires Complete(net, t)
    ensures Exhaled(net, Final(t).exhale)
  {
    hide Reachable;
    RunSound(net, t);
    if NoSelfLinks(net) {
      RunExact(net, t);
    }
  }
}
