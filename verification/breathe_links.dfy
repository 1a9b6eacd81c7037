// When the push order runs an app before the apps it feeds.
module BreatheLinks {
  import opened BreatheOrder
  import opened BreatheRuns
  import opened BreatheQuiet

  ghost predicate Before(s: seq<Name>, x: Name, y: Name) {
    exists i, j :: 0 <= i < j < |s| && s[i] == x && s[j] == y
  }

  // Round `k` is the one that exhales `y`.
  ghost predicate ExhaledIn(t: seq<Round>, y: Name, k: nat) {
    k + 1 < |t| && y !in t[k].exhale && y in t[k + 1].exhale
  }

  // `x` is a candidate of some round up to `k`.
  ghost predicate CandidateBy(t: seq<Round>, x: Name, k: nat) {
    exists i :: 0 <= i <= k && i < |t| && x in t[i].cands
  }

  // What is exhaled was a candidate of a round before.
  lemma {:induction false} WasCandidate(net: Net, t: seq<Round>, n: nat, x: Name)
    requires Rounds(net, t) && n < |t| && x in t[n].exhale
    ensures n > 0 && CandidateBy(t, x, n - 1)
  {
    hide NextWith, Kept, RoundInv;
    if n > 0 {
      var orders := RoundStep(net, t, n - 1);
      if x in t[n - 1].exhale {
        WasCandidate(net, t, n - 1, x);
        var i :| 0 <= i <= n - 2 && i < |t| && x in t[i].cands;
        assert i <= n - 1;
      } else {
        var now := t[n].exhale[|t[n - 1].exhale|..];
        assert t[n].exhale == t[n - 1].exhale + now;
        NoNames(now);
        NoNames(t[n - 1].cands);
        assert x in now && x in t[n - 1].cands;
      }
    }
  }

  // A quiet round keeps the candidates without upstream candidate.
  lemma QuietKeeps(net: Net, t: seq<Round>, i: nat, x: Name)
    requires Rounds(net, t) && Quiet(net, t) && NoSelfLinks(net) && i < |t| - 1 && x in t[i].cands
    ensures x in t[i + 1].exhale <==> !HasUpstream(x, Names(t[i].cands), Left(net, t[i].exhale))
  {
    hide NoMiddle, Kept, RoundInv, HasUpstream, Discovered;
    var orders := RoundStep(net, t, i);
    var cands, succ := t[i].cands, Left(net, t[i].exhale);
    InvDistinct(net, t[i]);
    NoNames(cands);
    assert NoSelf(Names(cands), succ);
    KeptExact(cands, succ, orders);
    var now := t[i + 1].exhale[|t[i].exhale|..];
    assert t[i + 1].exhale == t[i].exhale + now;
    NoNames(now);
  }

  // The heart of it: a candidate delayed by a quiet round is a candidate of the
  // next one.
  lemma DelayedComesBack(net: Net, t: seq<Round>, i: nat, x: Name)
    requires Rounds(net, t) && Quiet(net, t) && NoSelfLinks(net) && i < |t| - 1
    requires x in t[i].cands && x !in t[i + 1].exhale
    ensures x in t[i + 1].cands
  {
    hide Kept, RoundInv, Enumerates;
    var orders := RoundStep(net, t, i);
    var cands, succ := t[i].cands, Left(net, t[i].exhale);
    InvDistinct(net, t[i]);
    NoNames(cands);
    QuietKeeps(net, t, i, x);
    var w :| Upstream(w, x, Names(cands), succ);
    assert HasDownstream(w, Names(cands), succ);
    QuietKeeps(net, t, i, w);
    var now := t[i + 1].exhale[|t[i].exhale|..];
    assert t[i + 1].exhale == t[i].exhale + now;
    assert now == Sort(Kept(cands, orders));
    assert w in now && Pushes(net, w, x);
  }

  lemma {:induction false} StaysCandidate(net: Net, t: seq<Round>, i: nat, k: nat, x: Name)
    requires Rounds(net, t) && Quiet(net, t) && NoSelfLinks(net) && i <= k < |t|
    requires x in t[i].cands && x !in t[k].exhale
    ensures x in t[k].cands
    decreases k
  {
    hide Rounds, Quiet, NoSelfLinks;
    if i < k {
      ExhaleGrows(net, t, k - 1, k);
      StaysCandidate(net, t, i, k - 1, x);
      DelayedComesBack(net, t, k - 1, x);
    }
  }

  // In a quiet run a link from x to y is followed, x before y, if and only if x
  // is a candidate by the round that exhales y: while it is one, it delays y.
  lemma LinkFollowedExactly(net: Net, t: seq<Round>, x: Name, y: Name, k: nat)
    requires Complete(net, t) && Quiet(net, t) && NoSelfLinks(net)
    requires Linked(net, x, y) && x !in net.pull && ExhaledIn(t, y, k)
    ensures Before(Final(t).exhale, x, y) <==> CandidateBy(t, x, k)
  {
    hide Quiet, RoundInv, NoMiddle, NextRound, NextWith;
    ExhaleGrows(net, t, k, k + 1);
    ExhaleGrows(net, t, k + 1, |t| - 1);
    RunSound(net, t);
    if CandidateBy(t, x, k) {
      ExhaledEarlier(net, t, x, y, k);
      PositionsSplit(t[k].exhale, t[k + 1].exhale, Final(t).exhale, x, y);
    }
    if Before(Final(t).exhale, x, y) {
      PositionBack(t[k + 1].exhale, Final(t).exhale, x, y);
      WasCandidate(net, t, k + 1, x);
    }
  }

  lemma NewWasCandidate(net: Net, t: seq<Round>, k: nat, y: Name)
    requires Rounds(net, t) && ExhaledIn(t, y, k)
    ensures y in t[k].cands
  {
    hide NextWith, Kept, RoundInv;
    var orders := RoundStep(net, t, k);
    var now := t[k + 1].exhale[|t[k].exhale|..];
    assert t[k + 1].exhale == t[k].exhale + now;
    NoNames(now);
    NoNames(t[k].cands);
  }

  lemma Delays(net: Net, t: seq<Round>, k: nat, x: Name, y: Name)
    requires Rounds(net, t) && Quiet(net, t) && NoSelfLinks(net) && k < |t| - 1
    requires x in t[k].cands && y in t[k].cands && Linked(net, x, y) && x !in net.pull
    ensures y !in t[k + 1].exhale
  {
    hide Rounds, Quiet, NoMiddle;
    PrefixInv(net, t, k);
    InvDistinct(net, t[k]);
    NoNames(t[k].cands);
    assert Upstream(x, y, Names(t[k].cands), Left(net, t[k].exhale));
    QuietKeeps(net, t, k, y);
  }

  lemma ExhaledEarlier(net: Net, t: seq<Round>, x: Name, y: Name, k: nat)
    requires Rounds(net, t) && Quiet(net, t) && NoSelfLinks(net)
    requires Linked(net, x, y) && x !in net.pull && ExhaledIn(t, y, k)
    requires CandidateBy(t, x, k)
    ensures x in t[k].exhale
  {
    hide Quiet, Rounds, Linked, NoSelfLinks;
    var i :| 0 <= i <= k && i < |t| && x in t[i].cands;
    NewWasCandidate(net, t, k, y);
    if x !in t[k].exhale {
      StaysCandidate(net, t, i, k, x);
      Delays(net, t, k, x, y);
    }
  }

  lemma PositionsSplit(a: seq<Name>, b: seq<Name>, s: seq<Name>, x: Name, y: Name)
    requires a <= b <= s && x in a && y in b && y !in a
    ensures Before(s, x, y)
  {
    var i :| 0 <= i < |a| && a[i] == x;
    var j :| 0 <= j < |b| && b[j] == y;
    assert s[i] == x && s[j] == y;
  }

  lemma PositionBack(b: seq<Name>, s: seq<Name>, x: Name, y: Name)
    requires b <= s && Distinct(s) && y in b && Before(s, x, y)
    ensures x in b
  {
    var i, j :| 0 <= i < j < |s| && s[i] == x && s[j] == y;
    var k :| 0 <= k < |b| && b[k] == y;
    assert s[k] == y;
    assert k == j;
    assert b[i] == x;
  }
}
