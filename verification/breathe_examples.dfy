// Concrete networks on which `compute_breathe_order` does less than the comment
// in front of it promises.
module BreatheExamples {
  import opened BreatheOrder
  import opened BreatheQuiet
  import opened BreatheLinks
  import opened BreatheBlocks
  import opened BreatheSelfLinks

  lemma Letters()
    ensures "a" != "b" && "a" != "c" && "b" != "c" && "p" != "a" && "p" != "b" && "p" != "c"
    ensures Le("a", "b") && !Le("b", "a") && Le("b", "c") && Le("a", "c")
  {
    assert "a"[0] != "b"[0] && "a"[0] != "c"[0] && "b"[0] != "c"[0];
    assert "p"[0] != "a"[0] && "p"[0] != "b"[0] && "p"[0] != "c"[0];
    assert Le("a", "b") && !Le("b", "a") && Le("b", "c") && Le("a", "c");
  }

  lemma OnePull(p: Name)
    ensures Listing({p}) == [p]
  {
    NoNames(Listing({p}));
    SingleName(Listing({p}), p);
  }

  // Candidates that one pull app brings in, in any order.
  lemma FromPull(net: Net, p: Name, cands: seq<Name>)
    requires net.pull == {p} && Distinct(cands) && cands != []
    requires forall y :: y in cands <==> Pushes(net, p, y)
    ensures Initial(net, cands)
  {
    OnePull(p);
    assert OnlySource(p, [p], net.succ, Names(cands));
    forall y
      ensures y in cands <==> y in net.push && y !in [] && exists x :: x in [p] && Brings(x, y, net.succ)
    {
      assert Pushes(net, p, y) <==> y in net.push && Brings(p, y, net.succ);
      assert p in [p];
    }
    AnyOrder([p], net.succ, net.push, [], cands);
    assert forall y :: y in cands <==> exists x :: x in net.pull && Pushes(net, x, y);
  }

  // Candidates that one exhaled app brings in.
  lemma FromOne(net: Net, before: seq<Name>, now: seq<Name>, cands: seq<Name>, s: Name)
    requires Distinct(now) && Distinct(cands) && cands != [] && s in now && s in Left(net, before)
    requires forall y :: y in cands <==> y !in before + now && Pushes(net, s, y)
    requires forall x, y :: x in now && x in Left(net, before) && Pushes(net, x, y) && y !in before + now ==> x == s
    ensures Discovered(net, before, now, cands)
  {
    var feed := Left(net, before);
    assert OnlySource(s, now, feed, Names(cands)) by {
      forall x, y | x in now && y in Names(cands) && Brings(x, y, feed)
        ensures x == s
      {
        assert Pushes(net, x, y);
      }
    }
    forall y
      ensures y in cands <==> y in net.push && y !in before + now && exists x :: x in now && Brings(x, y, feed)
    {
      if x :| x in now && Brings(x, y, feed) && y in net.push && y !in before + now {
        assert Pushes(net, x, y);
      }
      if y in cands {
        assert Brings(s, y, feed);
      }
    }
    AnyOrder(now, feed, net.push, before + now, cands);
  }

  lemma FromNone(net: Net, before: seq<Name>, now: seq<Name>)
    requires forall x, y :: x in now && x in Left(net, before) && Pushes(net, x, y) ==> y in before + now
    ensures Discovered(net, before, now, [])
  {
    forall x, y | x in now && Brings(x, y, Left(net, before)) && y in net.push
      ensures y in before + now
    {
      assert Pushes(net, x, y);
    }
    CollectedNone(now, Left(net, before), net.push, before + now);
  }

  lemma KeptSingle(x: Name, o: Orders)
    ensures Kept([x], o) == [x] && Sort([x]) == [x]
  {
    var st := Delay([x], {});
    assert [x][1..] == [];
    if x in o {
      AloneStays(x, x, o[x], st);
    }
    assert DelayAll([x], o, st) == DelayAll([], o, if x in o then DelayBy(x, o[x], st) else st);
    assert Sort([x]) == Insert(x, Sort([])) == [x];
  }

  lemma Step(net: Net, before: seq<Name>, cands: seq<Name>, now: seq<Name>, next: seq<Name>, o: Orders)
    requires cands != [] && Enumerates(o, Left(net, before))
    requires Sort(Kept(cands, o)) == now && Discovered(net, before, now, next)
    ensures NextRound(net, Round(before, cands), Round(before + now, next))
  {
    hide Enumerates, Discovered, Sort, Kept;
    assert NextWith(net, Round(before, cands), Round(before + now, next), o);
  }

  // ---- A self-linked app is lost ----

  // p feeds a and b; a is also linked to itself.
  const LOOP := Net({"p"}, {"a", "b"}, map["p" := {"a", "b"}, "a" := {"a"}])

  lemma LoopKept()
    ensures Kept(["a", "b"], map["a" := ["a"]]) == ["b"] && Sort(["b"]) == ["b"]
  {
    Letters();
    var cands: seq<Name>, orders: Orders := ["a", "b"], map["a" := ["a"]];
    var st := Delay(cands, {});
    assert cands[1..] == ["b"] && ["b"][1..] == [];
    assert Without(["b"], "a") == ["b"];
    assert Without(cands, "a") == ["b"];
    var st1 := DelayOne("a", "a", st);
    assert st1 == Delay(["b"], {"a"});
    assert ["a"][1..] == [];
    assert DelayBy("a", ["a"], st) == DelayBy("a", [], st1) == st1;
    assert DelayAll(cands, orders, st) == DelayAll(["b"], orders, st1);
    assert DelayAll(["b"], orders, st1) == DelayAll([], orders, st1) == st1;
    assert Sort(["b"]) == Insert("b", Sort([])) == ["b"];
  }

  lemma LoopRound()
    ensures NextRound(LOOP, Round([], ["a", "b"]), Round(["b"], []))
  {
    hide Kept, Sort, Discovered;
    Letters();
    var orders: Orders := map["a" := ["a"]];
    assert Left(LOOP, []) == map["a" := {"a"}];
    assert Enumerates(orders, Left(LOOP, [])) by {
      assert Names(["a"]) == {"a"};
    }
    LoopKept();
    FromNone(LOOP, [], ["b"]);
    Step(LOOP, [], ["a", "b"], ["b"], [], orders);
    assert [] + ["b"] == ["b"];
  }

  // A complete run that never exhales a, though the pull app p feeds it.
  lemma SelfLinkLosesApp()
    ensures var t := [Round([], ["a", "b"]), Round(["b"], [])];
            Complete(LOOP, t) && Reachable(LOOP, "a") && "a" !in Final(t).exhale
  {
    hide NextRound, Initial, Pushes, Reachable;
    Letters();
    LoopRound();
    forall y
      ensures y in ["a", "b"] <==> Pushes(LOOP, "p", y)
    {
      LoopFeeds(y);
    }
    FromPull(LOOP, "p", ["a", "b"]);
    LoopReaches();
  }

  lemma LoopFeeds(y: Name)
    ensures Pushes(LOOP, "p", y) <==> y in {"a", "b"}
  {
    Letters();
  }

  lemma LoopReaches()
    ensures Reachable(LOOP, "a")
  {
    LoopFeeds("a");
    var path := ["p", "a"];
    assert Chain(LOOP, path) && path[|path| - 1] == "a";
  }

  // ---- The order depends on iteration, even without cycles ----

  // p feeds a, b and c; b is linked to a, and a to c.
  const LINE := Net({"p"}, {"a", "b", "c"}, map["p" := {"a", "b", "c"}, "b" := {"a"}, "a" := {"c"}])

  const LINE_ORDERS: Orders := map["b" := ["a"], "a" := ["c"]]

  lemma LineLeft()
    ensures Left(LINE, []) == map["b" := {"a"}, "a" := {"c"}]
    ensures Enumerates(LINE_ORDERS, Left(LINE, []))
    ensures Left(LINE, ["a", "b"]) == map[]
    ensures Left(LINE, ["b"]) == map["a" := {"c"}]
    ensures Left(LINE, ["b", "a"]) == map[]
  {
    hide Enumerates, Left;
    LineLeftOf([]);
    LineLeftOf(["a", "b"]);
    LineLeftOf(["b"]);
    LineLeftOf(["b", "a"]);
    Letters();
    LineOrdered();
  }

  lemma LineLeftOf(out: seq<Name>)
    ensures Left(LINE, out) == (if "b" in out then map[] else map["b" := {"a"}])
                             + (if "a" in out then map[] else map["a" := {"c"}])
  {
    Letters();
  }

  lemma LineOrdered()
    ensures Enumerates(LINE_ORDERS, map["b" := {"a"}, "a" := {"c"}])
  {
    Letters();
    assert Names(["a"]) == {"a"} && Names(["c"]) == {"c"};
  }

  lemma LineLinks(x: Name, y: Name)
    ensures Pushes(LINE, x, y) <==>
            (x == "p" && y in {"a", "b", "c"}) || (x == "b" && y == "a") || (x == "a" && y == "c")
  {
    Letters();
  }

  lemma LineInitial(cands: seq<Name>)
    requires cands == ["a", "b", "c"] || cands == ["b", "a", "c"]
    ensures Initial(LINE, cands)
  {
    Letters();
    forall y
      ensures y in cands <==> Pushes(LINE, "p", y)
    {
      LineLinks("p", y);
    }
    FromPull(LINE, "p", cands);
  }

  // The pass that meets a first: c is delayed, and a is safe from b.
  lemma MeetAFirst()
    ensures Kept(["a", "b", "c"], LINE_ORDERS) == ["a", "b"]
  {
    hide Without;
    Letters();
    WithoutLetters();
    var o := LINE_ORDERS;
    var st0 := Delay(["a", "b", "c"], {});
    assert ["a", "b", "c"][1..] == ["b", "c"] && ["b", "c"][1..] == ["c"] && ["c"][1..] == [] && ["a"][1..] == [];
    var st1 := DelayOne("a", "c", st0);
    assert st1 == Delay(["a", "b"], {"a"});
    assert DelayBy("a", ["c"], st0) == DelayBy("a", [], st1) == st1;
    assert DelayOne("b", "a", st1) == st1;
    assert DelayBy("b", ["a"], st1) == DelayBy("b", [], st1) == st1;
    assert DelayAll(["a", "b", "c"], o, st0) == DelayAll(["b", "c"], o, st1);
    assert DelayAll(["b", "c"], o, st1) == DelayAll(["c"], o, st1);
    assert DelayAll(["c"], o, st1) == DelayAll([], o, st1) == st1;
  }

  // The pass that meets b first: a is delayed, and still delays c.
  lemma MeetBFirst()
    ensures Kept(["b", "a", "c"], LINE_ORDERS) == ["b"]
  {
    hide Without;
    Letters();
    WithoutLetters();
    var o := LINE_ORDERS;
    var st0 := Delay(["b", "a", "c"], {});
    assert ["b", "a", "c"][1..] == ["a", "c"] && ["a", "c"][1..] == ["c"] && ["c"][1..] == [] && ["a"][1..] == [];
    var st1 := DelayOne("b", "a", st0);
    assert st1 == Delay(["b", "c"], {"b"});
    assert DelayBy("b", ["a"], st0) == DelayBy("b", [], st1) == st1;
    var st2 := DelayOne("a", "c", st1);
    assert st2 == Delay(["b"], {"b", "a"});
    assert DelayBy("a", ["c"], st1) == DelayBy("a", [], st2) == st2;
    assert DelayAll(["b", "a", "c"], o, st0) == DelayAll(["a", "c"], o, st1);
    assert DelayAll(["a", "c"], o, st1) == DelayAll(["c"], o, st2);
    assert DelayAll(["c"], o, st2) == DelayAll([], o, st2) == st2;
  }

  lemma WithoutLetters()
    ensures Without(["b", "a", "c"], "a") == ["b", "c"] && Without(["b", "c"], "c") == ["b"]
    ensures Without(["a", "b", "c"], "c") == ["a", "b"]
  {
    hide Without;
    Letters();
    WithoutHead("c", [], "a");
    WithoutHead("c", [], "c");
    WithoutHead("a", ["c"], "a");
    WithoutHead("b", ["a", "c"], "a");
    WithoutHead("b", ["c"], "c");
    WithoutHead("a", ["b", "c"], "c");
    assert ["c"] + [] == ["c"] && ["a"] + ["c"] == ["a", "c"] && ["b"] + ["c"] == ["b", "c"];
    assert ["b"] + ["a", "c"] == ["b", "a", "c"] && ["a"] + ["b", "c"] == ["a", "b", "c"];
    assert ["a"] + ["b"] == ["a", "b"] && ["b"] + [] == ["b"] && [] + ["c"] == ["c"];
  }

  lemma WithoutHead(x: Name, rest: seq<Name>, y: Name)
    ensures Without([], y) == []
    ensures Without([x] + rest, y) == (if x == y then [] else [x]) + Without(rest, y)
  {
    assert ([x] + rest)[1..] == rest;
  }

  lemma LineA1()
    ensures NextRound(LINE, Round([], ["a", "b", "c"]), Round(["a", "b"], ["c"]))
  {
    hide Enumerates, Discovered, Kept, NextRound, Left;
    LineLeft();
    MeetAFirst();
    SortTwo();
    LineDiscovered([], ["a", "b"], ["c"]);
    Step(LINE, [], ["a", "b", "c"], ["a", "b"], ["c"], LINE_ORDERS);
    assert [] + ["a", "b"] == ["a", "b"];
  }

  lemma SortTwo()
    ensures Sort(["a", "b"]) == ["a", "b"]
  {
    Letters();
    assert ["a", "b"][1..] == ["b"] && ["b"][1..] == [];
    assert Sort(["b"]) == Insert("b", Sort([])) == ["b"];
    assert Sort(["a", "b"]) == Insert("a", ["b"]) == ["a", "b"];
  }

  // The last round: c alone, with no successors left.
  lemma LineLast(before: seq<Name>)
    requires before == ["a", "b"] || before == ["b", "a"]
    ensures NextRound(LINE, Round(before, ["c"]), Round(before + ["c"], []))
  {
    hide Kept, NextRound, Sort;
    LineLeft();
    KeptSingle("c", map[]);
    FromNone(LINE, before, ["c"]);
    Step(LINE, before, ["c"], ["c"], [], map[]);
  }

  lemma LineDiscovered(before: seq<Name>, now: seq<Name>, cands: seq<Name>)
    requires (before, now, cands) == ([], ["a", "b"], ["c"]) || (before, now, cands) == ([], ["b"], ["a"])
          || (before, now, cands) == (["b"], ["a"], ["c"])
    ensures Discovered(LINE, before, now, cands)
  {
    Letters();
    LineLeft();
    var s := if cands == ["c"] then "a" else "b";
    forall y
      ensures y in cands <==> y !in before + now && Pushes(LINE, s, y)
    {
      LineLinks(s, y);
    }
    forall x, y | x in now && x in Left(LINE, before) && Pushes(LINE, x, y) && y !in before + now
      ensures x == s
    {
      LineLinks(x, y);
    }
    FromOne(LINE, before, now, cands, s);
  }

  lemma LineB1()
    ensures NextRound(LINE, Round([], ["b", "a", "c"]), Round(["b"], ["a"]))
  {
    hide Enumerates, Discovered, Kept, NextRound, Left, Sort;
    LineLeft();
    MeetBFirst();
    KeptSingle("b", map[]);
    LineDiscovered([], ["b"], ["a"]);
    Step(LINE, [], ["b", "a", "c"], ["b"], ["a"], LINE_ORDERS);
    assert [] + ["b"] == ["b"];
  }

  lemma LineB2()
    ensures NextRound(LINE, Round(["b"], ["a"]), Round(["b", "a"], ["c"]))
  {
    hide Discovered, Kept, NextRound, Left, Sort;
    LineLeft();
    var o: Orders := map["a" := ["c"]];
    assert Names(["c"]) == {"c"};
    KeptSingle("a", o);
    LineDiscovered(["b"], ["a"], ["c"]);
    Step(LINE, ["b"], ["a"], ["a"], ["c"], o);
    assert ["b"] + ["a"] == ["b", "a"];
  }

  // Two complete runs over one acyclic network. The first pushes a before b
  // although b feeds a, so the order neither follows links nor is determined by
  // the configuration.
  lemma OrderDependsOnIteration()
    ensures var t := [Round([], ["a", "b", "c"]), Round(["a", "b"], ["c"]), Round(["a", "b", "c"], [])];
            var u := [Round([], ["b", "a", "c"]), Round(["b"], ["a"]), Round(["b", "a"], ["c"]),
                     Round(["b", "a", "c"], [])];
            && Complete(LINE, t) && Complete(LINE, u) && NoSelfLinks(LINE)
            && Final(t).exhale != Final(u).exhale
            && Pushes(LINE, "b", "a")
  {
    hide NextRound, Initial, Pushes, LINE;
    LineInitial(["a", "b", "c"]);
    LineInitial(["b", "a", "c"]);
    LineA1();
    LineB1();
    LineB2();
    LineLast(["a", "b"]);
    LineLast(["b", "a"]);
    assert ["a", "b"] + ["c"] == ["a", "b", "c"];
    assert ["b", "a"] + ["c"] == ["b", "a", "c"];
    LineShape();
    assert ["a", "b", "c"][0] != ["b", "a", "c"][0];
  }

  lemma LineShape()
    ensures NoSelfLinks(LINE) && Pushes(LINE, "b", "a") && "a" != "b"
  {
    Letters();
    LineLinks("b", "a");
  }

  // ---- An app runs before the app that feeds it, in every order ----

  // p feeds a and c; c is linked to b, and b to a.
  const LATE := Net({"p"}, {"a", "b", "c"}, map["p" := {"a", "c"}, "c" := {"b"}, "b" := {"a"}])

  const LATE_RUN := [Round([], ["a", "c"]), Round(["a", "c"], ["b"]), Round(["a", "c", "b"], [])]

  lemma LateLinks(x: Name, y: Name)
    ensures Pushes(LATE, x, y) <==>
            (x == "p" && y in {"a", "c"}) || (x == "c" && y == "b") || (x == "b" && y == "a")
    ensures Linked(LATE, x, y) <==> Pushes(LATE, x, y)
  {
    Letters();
  }

  lemma LateLeft()
    ensures Left(LATE, []) == map["c" := {"b"}, "b" := {"a"}]
    ensures Left(LATE, ["a", "c"]) == map["b" := {"a"}]
  {
    Letters();
  }

  lemma LateFirst()
    ensures NextRound(LATE, Round([], ["a", "c"]), Round(["a", "c"], ["b"]))
  {
    hide NextRound, Discovered, Sort, Left;
    Letters();
    LateLeft();
    var o: Orders := map["c" := ["b"], "b" := ["a"]];
    assert Names(["a"]) == {"a"} && Names(["b"]) == {"b"};
    var st := Delay(["a", "c"], {});
    assert ["a", "c"][1..] == ["c"] && ["c"][1..] == [];
    Ineffective("c", ["b"], st);
    assert DelayAll(["a", "c"], o, st) == DelayAll(["c"], o, st) == DelayAll([], o, st) == st;
    SortAC();
    LateDiscovered();
    Step(LATE, [], ["a", "c"], ["a", "c"], ["b"], o);
    assert [] + ["a", "c"] == ["a", "c"];
  }

  lemma SortAC()
    ensures Sort(["a", "c"]) == ["a", "c"]
  {
    Letters();
    assert ["a", "c"][1..] == ["c"] && ["c"][1..] == [];
    assert Sort(["c"]) == Insert("c", Sort([])) == ["c"];
    assert Sort(["a", "c"]) == Insert("a", ["c"]) == ["a", "c"];
  }

  lemma LateDiscovered()
    ensures Discovered(LATE, [], ["a", "c"], ["b"])
  {
    hide Pushes, Discovered;
    Letters();
    LateLeft();
    forall y
      ensures y in ["b"] <==> y !in [] + ["a", "c"] && Pushes(LATE, "c", y)
    {
      LateLinks("c", y);
    }
    forall x, y | x in ["a", "c"] && x in Left(LATE, []) && Pushes(LATE, x, y)
      ensures x == "c"
    {
      LateLinks(x, y);
    }
    FromOne(LATE, [], ["a", "c"], ["b"], "c");
  }

  lemma LateLast()
    ensures NextRound(LATE, Round(["a", "c"], ["b"]), Round(["a", "c", "b"], []))
  {
    hide NextRound, Discovered, Sort, Kept, Pushes;
    Letters();
    LateLeft();
    var o: Orders := map["b" := ["a"]];
    assert Names(["a"]) == {"a"};
    KeptSingle("b", o);
    forall x, y | x in ["b"] && x in Left(LATE, ["a", "c"]) && Pushes(LATE, x, y)
      ensures y in ["a", "c"] + ["b"]
    {
      LateLinks(x, y);
    }
    FromNone(LATE, ["a", "c"], ["b"]);
    Step(LATE, ["a", "c"], ["b"], ["b"], [], o);
    assert ["a", "c"] + ["b"] == ["a", "c", "b"];
  }

  lemma LateQuiet()
    ensures Complete(LATE, LATE_RUN) && Quiet(LATE, LATE_RUN) && NoSelfLinks(LATE)
  {
    hide NextRound, Initial, Pushes, Linked;
    Letters();
    forall y
      ensures y in ["a", "c"] <==> Pushes(LATE, "p", y)
    {
      LateLinks("p", y);
    }
    FromPull(LATE, "p", ["a", "c"]);
    LateFirst();
    LateLast();
    LateLeft();
    forall x | x in LATE.push
      ensures !Linked(LATE, x, x)
    {
      LateLinks(x, x);
    }
  }

  // An acyclic network without self-links, of which every run is quiet, and on
  // which every run pushes a before b although b feeds a: b is no candidate by
  // the round that exhales a.
  lemma FeederTooLate(u: seq<Round>)
    requires Complete(LATE, u)
    ensures Quiet(LATE, LATE_RUN) && NoSelfLinks(LATE) && Linked(LATE, "b", "a")
    ensures Final(u).exhale == ["a", "c", "b"] && Before(Final(u).exhale, "a", "b")
    ensures ExhaledIn(LATE_RUN, "a", 0) && !CandidateBy(LATE_RUN, "b", 0)
  {
    hide Complete, Quiet, Linked;
    Letters();
    LateQuiet();
    QuietRunDecides(LATE, LATE_RUN, u);
    LateLinks("b", "a");
    var s: seq<Name> := ["a", "c", "b"];
    assert s[0] == "a" && s[2] == "b";
  }

  // ---- A middle candidate, and yet no choice ----

  // p, q and r feed a, b and c; b is linked to a, and a to c.
  const FREE := Net({"p", "q", "r"}, {"a", "b", "c"},
                    map["p" := {"a"}, "q" := {"b"}, "r" := {"c"}, "b" := {"a"}, "a" := {"c"}])

  lemma MoreLetters()
    ensures Le("p", "q") && Le("q", "r") && Le("p", "r")
    ensures "p" != "q" && "q" != "r" && "p" != "r"
    ensures {"p", "q", "r"} !! {"a", "b", "c"}
  {
    assert "p"[0] != "q"[0] && "q"[0] != "r"[0] && "p"[0] != "r"[0];
    assert "p"[0] != "a"[0] && "p"[0] != "b"[0] && "p"[0] != "c"[0];
    assert "q"[0] != "a"[0] && "q"[0] != "b"[0] && "q"[0] != "c"[0];
    assert "r"[0] != "a"[0] && "r"[0] != "b"[0] && "r"[0] != "c"[0];
  }

  lemma CollectPush(sources: seq<Name>, x: Name, orders: Orders, push: set<Name>, out: seq<Name>)
    ensures Collect(sources + [x], orders, push, out) ==
            var before := Collect(sources, orders, push, out);
            if x in orders then AddFrom(before, orders[x], push, out) else before
  {
    assert (sources + [x])[..|sources|] == sources;
  }

  lemma ThreePulls()
    ensures Listing({"p", "q", "r"}) == ["p", "q", "r"]
  {
    MoreLetters();
    assert Names(["p", "q", "r"]) == {"p", "q", "r"};
    SortedUnique(Listing({"p", "q", "r"}), ["p", "q", "r"]);
  }

  lemma TwoSingles(p: Name, q: Name, a: Name, b: Name, o: Orders, push: set<Name>)
    requires p in o && o[p] == [a] && q in o && o[q] == [b] && a in push && b in push && a != b
    ensures Collect([p, q], o, push, []) == [a, b]
  {
    hide Collect, AddFrom;
    CollectNothing(o, push);
    CollectPush([], p, o, push, []);
    CollectPush([p], q, o, push, []);
    AddOne([], a, push);
    AddOne([a], b, push);
    assert [] + [p] == [p] && [p] + [q] == [p, q];
    assert [] + [a] == [a] && [a] + [b] == [a, b];
  }

  lemma ThreeSingles(p: Name, q: Name, r: Name, a: Name, b: Name, c: Name, o: Orders, push: set<Name>)
    requires p in o && o[p] == [a] && q in o && o[q] == [b] && r in o && o[r] == [c]
    requires a in push && b in push && c in push && a != b && a != c && b != c
    ensures Collect([p, q, r], o, push, []) == [a, b, c]
  {
    hide Collect, AddFrom;
    TwoSingles(p, q, a, b, o, push);
    CollectPush([p, q], r, o, push, []);
    AddOne([a, b], c, push);
    assert [p, q] + [r] == [p, q, r] && [a, b] + [c] == [a, b, c];
  }

  // Every set iterated holds one app, so the candidates always come in one order.
  lemma FreeCollected(a: seq<Name>)
    requires Collected(["p", "q", "r"], FREE.succ, FREE.push, [], a)
    ensures a == ["a", "b", "c"]
  {
    hide Collect;
    Letters();
    var o :| Enumerates(o, FREE.succ) && a == Collect(["p", "q", "r"], o, FREE.push, []);
    FreeOrders(o);
    ThreeSingles("p", "q", "r", "a", "b", "c", o, FREE.push);
  }

  lemma FreeOrders(o: Orders)
    requires Enumerates(o, FREE.succ)
    ensures "p" in o && o["p"] == ["a"] && "q" in o && o["q"] == ["b"] && "r" in o && o["r"] == ["c"]
  {
    Letters();
    MoreLetters();
    SingleSet(o["p"], "a");
    SingleSet(o["q"], "b");
    SingleSet(o["r"], "c");
  }

  lemma CollectNothing(orders: Orders, push: set<Name>)
    ensures Collect([], orders, push, []) == []
  {
  }

  lemma SingleSet(s: seq<Name>, x: Name)
    requires Distinct(s) && Names(s) == {x}
    ensures s == [x]
  {
    NoNames(s);
    SingleName(s, x);
  }

  lemma AddOne(listed: seq<Name>, x: Name, push: set<Name>)
    requires x in push && x !in listed
    ensures AddFrom(listed, [x], push, []) == listed + [x]
  {
    assert [x][..0] == [];
    assert AddFrom(listed, [], push, []) == listed;
  }

  lemma FreeLeft()
    ensures Left(FREE, []) == map["b" := {"a"}, "a" := {"c"}]
  {
    Letters();
    MoreLetters();
  }

  lemma LineOnly(o: Orders)
    requires Enumerates(o, map["b" := {"a"}, "a" := {"c"}])
    ensures o == LINE_ORDERS
  {
    SingleSet(o["b"], "a");
    SingleSet(o["a"], "c");
  }

  // A middle candidate, and still every order keeps the same candidates: that no
  // candidate is in the middle is sufficient, and with several sources no more.
  lemma MiddleButIndependent()
    ensures OrderIndependent(Listing(FREE.pull), FREE.succ, FREE.push, [], Left(FREE, []))
    ensures !NoMiddle({"a", "b", "c"}, Left(FREE, []))
  {
    hide Kept, Collected, Enumerates;
    Letters();
    ThreePulls();
    FreeLeft();
    forall a, o | Collected(["p", "q", "r"], FREE.succ, FREE.push, [], a) && Enumerates(o, Left(FREE, []))
      ensures Kept(a, o) == ["a", "b"]
    {
      FreeCollected(a);
      LineOnly(o);
      MeetAFirst();
    }
    var cands := {"a", "b", "c"};
    assert Upstream("b", "a", cands, Left(FREE, [])) && Upstream("a", "c", cands, Left(FREE, []));
  }

  // ---- Which self-linked app is lost ----

  // p feeds a, q feeds b; both are linked to themselves. The candidates always
  // come as a, b.
  const TWO := Net({"p", "q"}, {"a", "b"}, map["p" := {"a"}, "q" := {"b"}, "a" := {"a"}, "b" := {"b"}])

  const TWO_RUN := [Round([], ["a", "b"])]

  lemma TwoPulls()
    ensures Listing({"p", "q"}) == ["p", "q"]
  {
    MoreLetters();
    assert Names(["p", "q"]) == {"p", "q"};
    SortedUnique(Listing({"p", "q"}), ["p", "q"]);
  }

  lemma TwoLinks(x: Name, y: Name)
    ensures Linked(TWO, x, y) <==>
            (x == "p" && y == "a") || (x == "q" && y == "b") || (x == "a" && y == "a") || (x == "b" && y == "b")
    ensures Pushes(TWO, x, y) <==> Linked(TWO, x, y)
    ensures Brings(x, y, TWO.succ) <==> Linked(TWO, x, y)
  {
    Letters();
    MoreLetters();
  }

  lemma TwoStart()
    ensures Rounds(TWO, TWO_RUN)
  {
    hide Collect, AddFrom, Pushes, Linked;
    Letters();
    MoreLetters();
    TwoPulls();
    var o: Orders := map["p" := ["a"], "q" := ["b"], "a" := ["a"], "b" := ["b"]];
    assert Names(["a"]) == {"a"} && Names(["b"]) == {"b"};
    assert Enumerates(o, TWO.succ);
    TwoSingles("p", "q", "a", "b", o, TWO.push);
    CollectedInitial(TWO, o);
  }

  // b is never lost, though it is linked to itself and not the only candidate: a
  // always comes first and removes itself. a can be lost.
  lemma SparedThoughNotAlone()
    ensures Rounds(TWO, TWO_RUN) && Linked(TWO, "b", "b") && Linked(TWO, "a", "a")
    ensures !CanLose(TWO, TWO_RUN, "b") && CanLose(TWO, TWO_RUN, "a")
  {
    hide CanLose, Spared, Pushes, Linked, Rounds, Brings;
    Letters();
    MoreLetters();
    TwoPulls();
    TwoStart();
    TwoUnfed("a", "b");
    TwoUnfed("b", "a");
    TwoSpared();
    TwoLinks("a", "a");
    TwoLinks("b", "b");
    SelfLinkedLostExactly(TWO, TWO_RUN, "b");
    SelfLinkedLostExactly(TWO, TWO_RUN, "a");
  }

  lemma TwoUnfed(x: Name, y: Name)
    requires (x, y) == ("a", "b") || (x, y) == ("b", "a")
    ensures Unfed(TWO, Final(TWO_RUN), x)
  {
    hide Pushes;
    Letters();
    forall v, w | v in {y} && Pushes(TWO, v, w)
      ensures w in {y}
    {
      TwoLinks(v, w);
      MoreLetters();
    }
    assert UnfedBy(TWO, Final(TWO_RUN), x, {y});
  }

  lemma TwoSpared()
    ensures SparedIn(TWO, TWO_RUN, "b") && !SparedIn(TWO, TWO_RUN, "a")
  {
    hide Pushes, Linked, Brings;
    Letters();
    MoreLetters();
    TwoPulls();
    var sources: seq<Name> := ["p", "q"];
    TwoLinks("p", "a");
    TwoLinks("p", "b");
    TwoLinks("q", "a");
    TwoLinks("q", "b");
    assert EarlierAt(sources, TWO.succ, "a", "b", 0);
    assert !Earlier(sources, TWO.succ, "b", "a") by {
      forall i: nat
        ensures !EarlierAt(sources, TWO.succ, "b", "a", i)
      {
        assert i < 2 ==> sources[0] == "p" && Brings(sources[0], "a", TWO.succ);
      }
    }
    assert Left(TWO, []) == map["a" := {"a"}, "b" := {"b"}];
    assert Names(["a", "b"]) == {"a", "b"};
  }
}
