// The engine state of src/engine.rs, and the migration from one configuration
// to the next.
module Engine {
  import opened Config
  import opened Packets
  import opened Links
  import opened NetworkTables
  import B = BreatheOrder
  import L = BreatheLoop

  // ---- The links and their packets ----

  // Every link is a ring of its own, and owns the packets queued on it.
  ghost predicate LinksOk(links: map<string, Link>, fl: Freelist)
    reads set l | l in links :: links[l]
    reads set l | l in links :: links[l].packets
    reads fl, fl.list
    ensures LinksOk(links, fl) ==> fl.Valid() && forall l :: l in links ==> links[l].Valid()
  {
    && fl.Valid()
    && (forall l :: l in links ==> LinkOk(links[l], fl))
    && (forall a, b :: a in links && b in links && a != b ==> NoSharing(links[a], links[b]))
  }

  ghost predicate LinkOk(link: Link, fl: Freelist)
    requires fl.Valid()
    reads link, link.packets, fl, fl.list
  {
    && link.Valid() && link.packets != fl.list
    && Distinct(link.Queue()) && Addrs(link.Queue()) <= fl.Live()
  }

  ghost predicate NoSharing(a: Link, b: Link)
    reads a, a.packets, b, b.packets
  {
    && a != b && a.packets != b.packets && a.Valid() && b.Valid()
    && Addrs(a.Queue()) !! Addrs(b.Queue())
  }

  // The links that stay are the same ones, with the same packets on them.
  ghost predicate Continued(before: map<string, Link>, queues: map<string, seq<Packet>>, links: set<string>,
                            after: map<string, Link>, queues': map<string, seq<Packet>>)
  {
    forall k :: k in before && k in links ==>
      k in after && after[k] == before[k] && k in queues && k in queues' && queues'[k] == queues[k]
  }

  lemma ContinuedAs(before: map<string, Link>, queues: map<string, seq<Packet>>, links: set<string>,
                    after: map<string, Link>, queues': map<string, seq<Packet>>)
    requires after == NamedBy(before, links) && queues.Keys == before.Keys && queues'.Keys == after.Keys
    requires forall k :: k in after ==> queues'[k] == queues[k]
    ensures Continued(before, queues, links, after, queues')
  {
  }

  lemma ContinuedSame(before: map<string, Link>, queues: map<string, seq<Packet>>, links: set<string>,
                      after: map<string, Link>, queues': map<string, seq<Packet>>)
    requires Continued(before, queues, links, after, queues') && after.Keys == links
    ensures forall k :: k in after && k in before ==> after[k] == before[k]
  {
  }

  // More links come to the table after that.
  lemma ContinuedOn(before: map<string, Link>, queues: map<string, seq<Packet>>, links: set<string>,
                    mid: map<string, Link>, queues': map<string, seq<Packet>>,
                    after: map<string, Link>, queues'': map<string, seq<Packet>>)
    requires Continued(before, queues, links, mid, queues') && Continued(mid, queues', mid.Keys, after, queues'')
    ensures Continued(before, queues, links, after, queues'')
  {
  }

  // The packets on every link that goes are freed, link by link and each once.
  ghost predicate FreedWith(queues: map<string, seq<Packet>>, links: set<string>, gone: seq<string>,
                            freed: seq<Packet>, pool: Pool, pool': Pool)
  {
    && B.Distinct(gone) && B.Names(gone) == queues.Keys - links && (forall k :: k in gone ==> k in queues)
    && freed == Joined(queues, gone) && pool' == FreedAll(pool, freed)
  }

  // What is queued on each link.
  ghost function QueuesOf(links: map<string, Link>): map<string, seq<Packet>>
    requires forall l :: l in links ==> links[l].Valid()
    reads set l | l in links :: links[l]
    reads set l | l in links :: links[l].packets
  {
    map l | l in links :: links[l].Queue()
  }

  // No queue changes while no link does.
  twostate lemma QueuesSame(links: map<string, Link>)
    requires forall l :: l in links ==> old(links[l].Valid())
    requires forall l :: l in links ==> unchanged(links[l]) && unchanged(links[l].packets)
    ensures forall l :: l in links ==> links[l].Valid()
    ensures QueuesOf(links) == old(QueuesOf(links))
  {
    hide Link.Queue;
    forall l | l in links
      ensures links[l].Queue() == old(links[l].Queue())
    {
    }
  }

  lemma QueuesAre(links: map<string, Link>)
    requires forall l :: l in links ==> links[l].Valid()
    ensures QueuesOf(links).Keys == links.Keys
    ensures forall l :: l in links ==> QueuesOf(links)[l] == links[l].Queue()
  {
    hide Link.Queue;
  }

  lemma LeftOver(clone: map<string, Link>, left: map<string, Link>, links: set<string>, after: map<string, Link>)
    requires forall k :: k in left ==> k in clone && left[k] == clone[k]
    requires left.Keys == clone.Keys * links && after == NamedBy(clone, links)
    ensures left == after
  {
    assert left.Keys == after.Keys;
  }

  lemma QueuesPart(part: map<string, Link>, all: map<string, Link>)
    requires forall l :: l in part ==> l in all && all[l] == part[l]
    requires forall l :: l in all ==> all[l].Valid()
    ensures Continued(part, QueuesOf(part), part.Keys, all, QueuesOf(all))
  {
    hide Link.Queue;
  }

  // The queues of a list of links, one after the other.
  ghost function Joined(queues: map<string, seq<Packet>>, names: seq<string>): seq<Packet>
    requires forall l :: l in names ==> l in queues
  {
    if names == [] then []
    else Joined(queues, names[..|names| - 1]) + queues[names[|names| - 1]]
  }

  // Dropping one link of the table frees its packets and leaves the others be.
  method DropLink(link: Link, ghost links: map<string, Link>, ghost l: string, fl: Freelist)
    requires LinksOk(links, fl) && l in links && links[l] == link
    modifies links[l], fl, fl.list
    ensures LinksOk(links - {l}, fl)
    ensures fl.Abs() == FreedAll(old(fl.Abs()), old(links[l].Queue()))
    ensures forall k :: k in links && k != l ==> links[k].Queue() == old(links[k].Queue())
  {
    hide Link.Queue, FreedAll, Freelist.Valid, Freelist.Live, Distinct, Addrs;
    assert LinkOk(links[l], fl);
    assert forall k :: k in links && k != l ==> NoSharing(links[k], links[l]) && LinkOk(links[k], fl);
    link.Drop(fl);
    forall k | k in links && k != l
      ensures LinkOk(links[k], fl)
    {
    }
  }

  // A new link joins the others: it is empty and shares nothing with them.
  lemma LinksOkAdd(links: map<string, Link>, l: string, link: Link, fl: Freelist)
    requires LinksOk(links, fl) && l !in links
    requires link.Valid() && link.Queue() == [] && link.packets != fl.list
    requires forall k :: k in links ==> links[k] != link && links[k].packets != link.packets
    ensures LinksOk(links[l := link], fl)
  {
    hide Freelist.Valid, Freelist.Live;
    assert Addrs([]) == {} && Distinct([]);
    forall k | k in links
      ensures NoSharing(links[k], link) && NoSharing(link, links[k])
    {
      assert LinkOk(links[k], fl);
    }
  }

  // The links with these names.
  function NamedBy(links: map<string, Link>, names: set<string>): map<string, Link> {
    map l | l in links && l in names :: links[l]
  }

  lemma NamedIn(links: map<string, Link>, names: set<string>, l: string)
    ensures l in NamedBy(links, names) <==> l in links && l in names
  {
  }

  lemma NamedAll(links: map<string, Link>, names: set<string>)
    ensures NamedBy(links, names + links.Keys) == links
  {
  }

  lemma NamedLess(links: map<string, Link>, names: set<string>, rest: set<string>, l: string)
    ensures l in names ==> NamedBy(links, names + (rest - {l})) == NamedBy(links, names + rest)
    ensures l !in names ==> NamedBy(links, names + (rest - {l})) == NamedBy(links, names + rest) - {l}
  {
  }

  // After the removals exactly the links that stay are still referenced.
  lemma KeptReferenced(t: Tables, clone: map<string, Link>, links: set<string>, fl: Freelist)
    requires Tidy(t) && LinksOk(clone, fl) && t.links == NamedBy(clone, links)
    ensures forall k :: k in clone ==> (Referenced(t, clone[k]) <==> k in links)
  {
    hide Sound, Named, Anchored, LinkOk, Freelist.Valid;
    forall k | k in clone
      ensures Referenced(t, clone[k]) <==> k in links
    {
      if k in links {
        assert k in t.links && t.links[k] == clone[k];
      } else {
        forall j | j in t.links
          ensures t.links[j] != clone[k]
        {
          assert NoSharing(clone[j], clone[k]);
        }
        NotReferenced(t, clone[k]);
      }
    }
  }

  // ---- The network of apps ----

  ghost function SourcesOf(links: set<string>): set<string>
    requires forall l :: l in links ==> IsCanonical(l)
  {
    set l | l in links :: SpecOf(l).from
  }

  ghost function TargetsOf(links: set<string>, from: string): set<string>
    requires forall l :: l in links ==> IsCanonical(l)
  {
    set l | l in links && SpecOf(l).from == from :: SpecOf(l).to
  }

  // The graph that the breathe order is computed on.
  ghost function NetOf(t: Tables): B.Net
    requires Named(t)
  {
    B.Net(set n | n in t.apps && t.apps[n].app.hasPull,
          set n | n in t.apps && t.apps[n].app.hasPush,
          map x | x in SourcesOf(t.links.Keys) :: TargetsOf(t.links.Keys, x))
  }

  // Some link of the table leads from one app to the other.
  ghost predicate LinkLeads(t: Tables, x: string, y: string) {
    exists l :: l in t.links && IsCanonical(l) && SpecOf(l).from == x && SpecOf(l).to == y
  }

  // The packets of one breath get along this path: from an app that pulls, over
  // links into apps that push.
  ghost predicate Carried(t: Tables, path: seq<string>)
    ensures Carried(t, path) ==> |path| >= 2
  {
    && |path| >= 2 && path[0] in t.apps && t.apps[path[0]].app.hasPull
    && (forall i :: 0 < i < |path| ==>
          path[i] in t.apps && t.apps[path[i]].app.hasPush && LinkLeads(t, path[i - 1], path[i]))
  }

  // A push app that does not pull is linked to itself.
  ghost predicate LinkedToItself(t: Tables, x: string) {
    x in t.apps && t.apps[x].app.hasPush && !t.apps[x].app.hasPull && LinkLeads(t, x, x)
  }

  // The two lists of callbacks, by the tables alone. `inhale` has the pull apps;
  // `exhale` has push apps that a path ends at, and all of them if no app is
  // linked to itself.
  ghost predicate Breathes(t: Tables, inhale: seq<string>, exhale: seq<string>) {
    && (forall x :: x in inhale <==> x in t.apps && t.apps[x].app.hasPull)
    && (forall x :: x in exhale ==> x in t.apps && t.apps[x].app.hasPush)
    && (forall x :: x in exhale ==> exists path :: Carried(t, path) && path[|path| - 1] == x)
    && ((forall x :: !LinkedToItself(t, x)) ==> forall path :: Carried(t, path) ==> path[|path| - 1] in exhale)
  }

  // The graph has the apps that pull, those that push, and the links.
  lemma NetIs(t: Tables, x: string, y: string)
    requires Named(t)
    ensures x in NetOf(t).pull <==> x in t.apps && t.apps[x].app.hasPull
    ensures x in NetOf(t).push <==> x in t.apps && t.apps[x].app.hasPush
    ensures B.Linked(NetOf(t), x, y) <==> LinkLeads(t, x, y)
  {
    hide SpecOf, IsCanonical, ParseLink, FormatLink;
    if l :| l in t.links && IsCanonical(l) && SpecOf(l).from == x && SpecOf(l).to == y {
      assert x in SourcesOf(t.links.Keys) && y in TargetsOf(t.links.Keys, x);
    }
  }

  lemma CarriedIs(t: Tables, path: seq<string>)
    requires Named(t)
    ensures Carried(t, path) <==> B.Chain(NetOf(t), path)
  {
    hide LinkLeads, NetOf, B.Linked;
    if |path| >= 2 {
      NetIs(t, path[0], path[1]);
      ChainSteps(NetOf(t), path);
      if Carried(t, path) {
        forall i | 0 < i < |path|
          ensures B.Pushes(NetOf(t), path[i - 1], path[i])
        {
          NetIs(t, path[i - 1], path[i]);
          NetIs(t, path[i], path[i]);
        }
      }
      if B.Chain(NetOf(t), path) {
        forall i | 0 < i < |path|
          ensures path[i] in t.apps && t.apps[path[i]].app.hasPush && LinkLeads(t, path[i - 1], path[i])
        {
          assert B.Pushes(NetOf(t), path[i - 1], path[i]);
          NetIs(t, path[i - 1], path[i]);
          NetIs(t, path[i], path[i]);
        }
      }
    }
  }

  lemma ChainSteps(net: B.Net, path: seq<string>)
    requires |path| >= 2
    ensures B.Chain(net, path)
       <==> path[0] in net.pull && forall i :: 0 < i < |path| ==> B.Pushes(net, path[i - 1], path[i])
  {
    hide B.Pushes;
    if B.Chain(net, path) {
      forall i | 0 < i < |path|
        ensures B.Pushes(net, path[i - 1], path[i])
      {
        assert path[i] == path[i - 1 + 1];
      }
    }
    if forall i :: 0 < i < |path| ==> B.Pushes(net, path[i - 1], path[i]) {
      forall i | 0 <= i < |path| - 1
        ensures B.Pushes(net, path[i], path[i + 1])
      {
        assert path[i] == path[i + 1 - 1];
      }
    }
  }

  // What the lists are on the graph, said of the tables.
  lemma BreathesBy(t: Tables, inhale: seq<string>, exhale: seq<string>)
    requires Named(t) && B.Names(inhale) == NetOf(t).pull && B.Exhaled(NetOf(t), exhale)
    ensures Breathes(t, inhale, exhale)
  {
    hide LinkLeads, NetOf, Carried;
    forall x
      ensures x in inhale <==> x in t.apps && t.apps[x].app.hasPull
    {
      NetIs(t, x, x);
      assert x in inhale <==> x in B.Names(inhale);
    }
    forall x | x in exhale
      ensures exists path :: Carried(t, path) && path[|path| - 1] == x
      ensures x in t.apps && t.apps[x].app.hasPush
    {
      assert B.Reachable(NetOf(t), x);
      var path :| B.Chain(NetOf(t), path) && path[|path| - 1] == x;
      CarriedIs(t, path);
      CarriedEnds(t, path);
    }
    if forall x :: !LinkedToItself(t, x) {
      forall x
        ensures !(x in NetOf(t).push && x !in NetOf(t).pull && B.Linked(NetOf(t), x, x))
      {
        NetIs(t, x, x);
        assert !LinkedToItself(t, x);
      }
      forall path | Carried(t, path)
        ensures path[|path| - 1] in exhale
      {
        CarriedIs(t, path);
        assert B.Reachable(NetOf(t), path[|path| - 1]);
      }
    }
  }

  lemma CarriedEnds(t: Tables, path: seq<string>)
    requires Carried(t, path)
    ensures |path| >= 2 && path[|path| - 1] in t.apps && t.apps[path[|path| - 1]].app.hasPush
  {
    hide LinkLeads;
  }

  // Every app that a link leads to is in the app table, so no lookup of a
  // successor fails.
  lemma SuccessorsFound(t: Tables, x: string, y: string)
    requires Tidy(t) && B.Linked(NetOf(t), x, y)
    ensures y in t.apps
  {
    hide SpecOf, IsCanonical, ParseLink, FormatLink, Sound;
    var l :| l in t.links && SpecOf(l).from == x && SpecOf(l).to == y;
  }

  // The configured app of that name is the running one.
  predicate SameIdentity(st: AppState, apps: map<string, AppArg>, name: string) {
    name in apps && st.conf.identity == apps[name].identity
  }

  // This app was running, and a new configuration keeps it.
  ghost predicate Keeps(running: map<string, AppState>, apps: map<string, AppArg>, n: string) {
    n in running && SameIdentity(running[n], apps, n)
  }

  // New apps under these names: each is one of its own, with the callbacks of its
  // configuration.
  ghost predicate NewApps(now: map<string, AppState>, apps: map<string, AppArg>, names: set<string>)
    ensures NewApps(now, apps, names) ==> forall n :: n in names ==> n in now && n in apps && now[n].conf == apps[n]
  {
    && (forall n :: n in names ==> n in now && n in apps && now[n].conf == apps[n] && RunsAs(now[n].app, apps[n]))
    && (forall m, n :: m in names && n in names && m != n ==> now[m].app != now[n].app)
  }

  ghost predicate RunsAs(app: App, conf: AppArg) {
    app.hasPull == conf.hasPull && app.hasPush == conf.hasPush && app.hasStop == conf.hasStop
  }

  // The stop callbacks that ran: those of the apps that are not kept, each once.
  ghost predicate StopsRun(before: map<string, AppState>, apps: map<string, AppArg>, stopped: seq<string>,
                           calls: seq<App>, calls': seq<App>)
  {
    && B.Distinct(stopped) && (forall n :: n in stopped ==> n in before)
    && (forall n :: n in stopped <==> n in before && !Keeps(before, apps, n))
    && calls' == calls + Calls(before, stopped)
  }

  lemma StopsAre(before: map<string, AppState>, apps: map<string, AppArg>, stopped: seq<string>,
                 calls: seq<App>, calls': seq<App>)
    requires B.Distinct(stopped) && forall n :: n in stopped <==> n in before && n !in KeptApps(before, apps)
    requires calls' == calls + Calls(before, stopped)
    ensures StopsRun(before, apps, stopped, calls, calls')
  {
    hide SameIdentity, Calls;
  }

  // Only the ports of the apps changed before that.
  lemma StopsBefore(a: Tables, u: Tables, apps: map<string, AppArg>, stopped: seq<string>,
                    calls: seq<App>, calls': seq<App>)
    requires SameApps(a, u) && StopsRun(u.apps, apps, stopped, calls, calls')
    ensures StopsRun(a.apps, apps, stopped, calls, calls')
  {
    hide Calls;
    CallsSame(a, u, stopped);
    forall n | n in a.apps
      ensures Keeps(a.apps, apps, n) <==> Keeps(u.apps, apps, n)
    {
    }
  }

  lemma {:induction false} CallsSame(a: Tables, u: Tables, names: seq<string>)
    requires SameApps(a, u) && forall n :: n in names ==> n in u.apps
    ensures Calls(a.apps, names) == Calls(u.apps, names)
  {
    if names != [] {
      CallsSame(a, u, names[..|names| - 1]);
    }
  }

  // The running apps that a new configuration keeps.
  ghost function KeptApps(running: map<string, AppState>, apps: map<string, AppArg>): map<string, AppState> {
    map n | n in running && SameIdentity(running[n], apps, n) :: running[n]
  }

  // Both ends of every link are among the names.
  ghost predicate EndsIn(links: set<string>, names: set<string>) {
    forall l :: l in links && IsCanonical(l) ==> SpecOf(l).from in names && SpecOf(l).to in names
  }

  // The stop callbacks that run when these apps go, in order.
  ghost function Calls(apps: map<string, AppState>, names: seq<string>): seq<App>
    requires forall n :: n in names ==> n in apps
  {
    if names == [] then []
    else
      var app := apps[names[|names| - 1]].app;
      Calls(apps, names[..|names| - 1]) + if app.hasStop then [app] else []
  }

  // The apps that run when those in `rest` are still to be looked at.
  ghost function Running(before: map<string, AppState>, apps: map<string, AppArg>, rest: set<string>)
    : map<string, AppState>
  {
    map n | n in before && (n in rest || SameIdentity(before[n], apps, n)) :: before[n]
  }

  ghost predicate StoppedAre(before: map<string, AppState>, now: set<string>, stopped: seq<string>)
    ensures StoppedAre(before, now, stopped) ==> forall n :: n in stopped ==> n in before
  {
    B.Distinct(stopped) && forall n :: n in stopped <==> n in before && n !in now
  }

  lemma NoneStopped(before: map<string, AppState>, apps: map<string, AppArg>)
    ensures Running(before, apps, before.Keys) == before && StoppedAre(before, before.Keys, [])
    ensures Calls(before, []) == []
  {
  }

  lemma StoppedNext(before: map<string, AppState>, apps: map<string, AppArg>, rest: set<string>,
                    stopped: seq<string>, n: string)
    requires n in rest && rest <= before.Keys && StoppedAre(before, Running(before, apps, rest).Keys, stopped)
    ensures n in Running(before, apps, rest) && Running(before, apps, rest)[n] == before[n]
    ensures SameIdentity(before[n], apps, n) ==> Running(before, apps, rest - {n}) == Running(before, apps, rest)
    ensures !SameIdentity(before[n], apps, n) ==>
              && Running(before, apps, rest - {n}) == Running(before, apps, rest) - {n}
              && StoppedAre(before, (Running(before, apps, rest) - {n}).Keys, stopped + [n])
  {
    hide SameIdentity;
    var now := Running(before, apps, rest);
    if SameIdentity(before[n], apps, n) {
      assert Running(before, apps, rest - {n}) == now;
    } else {
      assert Running(before, apps, rest - {n}) == now - {n};
      assert n !in stopped;
    }
  }

  lemma AllStopped(before: map<string, AppState>, apps: map<string, AppArg>, stopped: seq<string>)
    ensures Running(before, apps, {}) == KeptApps(before, apps)
    ensures forall now :: StoppedAre(before, now, stopped) ==>
              B.Distinct(stopped) && forall n :: n in stopped <==> n in before && n !in now
  {
    hide SameIdentity;
  }

  lemma CallsPush(apps: map<string, AppState>, names: seq<string>, n: string)
    requires n in apps && forall m :: m in names ==> m in apps
    ensures forall m :: m in names + [n] ==> m in apps
    ensures Calls(apps, names + [n]) == Calls(apps, names) + if apps[n].app.hasStop then [apps[n].app] else []
    ensures n !in names && B.Distinct(names) ==> B.Distinct(names + [n])
  {
    assert (names + [n])[..|names|] == names;
  }

  // A configuration is applied up to the apps in `rest`.
  ghost predicate StartedSome(before: map<string, AppState>, now: map<string, AppState>, apps: map<string, AppArg>,
                              rest: set<string>)
  {
    && now.Keys == before.Keys + (apps.Keys - rest)
    && (forall n :: n in before ==> now[n] == before[n])
    && NewApps(now, apps, now.Keys - before.Keys)
    && (apps.Keys <= before.Keys ==> now == before)
  }

  lemma NoneStarted(before: map<string, AppState>, apps: map<string, AppArg>)
    ensures StartedSome(before, before, apps, apps.Keys)
  {
  }

  lemma OneStarted(before: map<string, AppState>, mid: map<string, AppState>, now: map<string, AppState>,
                   apps: map<string, AppArg>, rest: set<string>, n: string)
    requires n in apps && n in rest && StartedSome(before, mid, apps, rest)
    requires if n in mid then now == mid
             else n in now && now[n].conf == apps[n] && RunsAs(now[n].app, apps[n]) && now == mid[n := now[n]]
                  && forall m :: m in mid ==> mid[m].app != now[n].app
    ensures StartedSome(before, now, apps, rest - {n})
  {
  }

  lemma AllStarted(before: map<string, AppState>, now: map<string, AppState>, apps: map<string, AppArg>)
    requires StartedSome(before, now, apps, {})
    ensures now.Keys == before.Keys + apps.Keys
    ensures forall n :: n in before ==> now[n] == before[n]
    ensures NewApps(now, apps, now.Keys - before.Keys)
    ensures apps.Keys <= before.Keys ==> now == before
  {
    hide NewApps;
  }

  // The links in `done` are on their ports, put there in this order.
  ghost predicate LinkedSome(t: Tables, now: Tables, links: set<string>, done: set<string>, order: seq<string>)
    ensures LinkedSome(t, now, links, done, order) ==> now.apps.Keys == t.apps.Keys
  {
    && now.links.Keys == t.links.Keys + done && SameApps(t, now) && EndsIn(done, t.apps.Keys)
    && Named(now) && Sound(now) && OrderOf(order, done) && WiredTo(now, WireAll(order))
    && (t.links.Keys == links && WiredUp(t, links) ==> now == t)
  }

  lemma NoneLinked(t: Tables, links: set<string>)
    requires Named(t) && Sound(t)
    ensures LinkedSome(t, t, links, {}, [])
  {
    hide Named, Sound, WiredUp, IsCanonical, SpecOf;
  }

  lemma BeforeLinking(t: Tables, now: Tables, links: set<string>, done: set<string>, order: seq<string>, link: string)
    requires LinkedSome(t, now, links, done, order) && link in links && link !in done && IsCanonical(link)
    ensures Named(now) && Sound(now) && OrderOf(order, done) && WiredTo(now, WireAll(order))
    ensures EndsIn(links, t.apps.Keys) ==> SpecOf(link).from in t.apps && SpecOf(link).to in t.apps
  {
    hide Named, Sound, WiredUp, IsCanonical, SpecOf, WireAll, WiredTo, OrderOf;
    EndsOne(done, link, links, t.apps.Keys);
  }

  lemma OneLinked(t: Tables, u: Tables, now: Tables, links: set<string>, done: set<string>, order: seq<string>,
                  link: string)
    requires LinkedSome(t, u, links, done, order) && link in links && link !in done && IsCanonical(link)
    requires SpecOf(link).from in u.apps && SpecOf(link).to in u.apps && SameApps(u, now)
    requires now.links.Keys == u.links.Keys + {link} && Named(now) && Sound(now)
    requires WiredTo(now, PutOn(WireAll(order), link))
    requires WiredOut(u, link) && WiredIn(u, link) ==> now == u
    ensures LinkedSome(t, now, links, done + {link}, order + [link])
  {
    hide Named, Sound, WiredUp, IsCanonical, SpecOf, WireAll, WiredTo, OrderOf, PutOn, SameApps, EndsIn, WiredOut,
         WiredIn;
    EndsOne(done, link, links, t.apps.Keys);
    OrderPush(order, done, link);
    SameAppsTrans(t, u, now);
    WiredPart(t, links, link);
  }

  lemma AllLinked(t: Tables, now: Tables, links: set<string>, order: seq<string>)
    requires LinkedSome(t, now, links, links, order) && t.links.Keys <= links
    ensures Tidy(now) && SameApps(t, now) && now.links.Keys == links && EndsIn(links, t.apps.Keys)
    ensures OrderOf(order, links) && WiredTo(now, WireAll(order))
    ensures t.links.Keys == links && WiredUp(t, links) ==> now == t
  {
    hide Named, Sound, WiredUp, WireAll, WiredTo, OrderOf, Anchored, EndsIn;
    assert now.links.Keys == links;
    EndsAnchor(now);
  }

  lemma WiredPart(t: Tables, links: set<string>, link: string)
    requires link in links
    ensures WiredUp(t, links) ==> WiredOut(t, link) && WiredIn(t, link)
  {
  }

  lemma CanonicalParses(l: string)
    requires IsCanonical(l)
    ensures ParseLink(l).Match? && ParseLink(l).spec == SpecOf(l)
  {
  }

  lemma LinkedBy(t: Tables, l: string, link: Link, u: Tables)
    requires IsCanonical(l) && SpecOf(l).from in t.apps && SpecOf(l).to in t.apps
    requires u.links == t.links[l := link]
    requires var s := SpecOf(l);
             var from := t.apps[s.from];
             var mid := t.apps[s.from := from.(output := from.output[s.output := link])];
             u.apps == mid[s.to := mid[s.to].(input := mid[s.to].input[s.input := link])]
    ensures u == WithLink(t, l, link)
  {
    hide IsCanonical, SpecOf, ParseLink, FormatLink;
  }

  lemma LinkedAgain(t: Tables, l: string, link: Link)
    requires IsCanonical(l) && SpecOf(l).from in t.apps && SpecOf(l).to in t.apps && Fits(t, l, link)
    ensures WiredOut(t, l) && WiredIn(t, l) ==> WithLink(t, l, link) == t
    ensures WithLink(t, l, link).links == t.links[l := link]
  {
    hide WithLink;
    LinkedApps(t, l, link);
    if WiredOut(t, l) && WiredIn(t, l) {
      LinkAgain(t, l);
    }
  }

  lemma EndsAnchor(t: Tables)
    ensures EndsIn(t.links.Keys, t.apps.Keys) ==> Anchored(t)
  {
  }

  lemma OrderPush(order: seq<string>, done: set<string>, l: string)
    requires OrderOf(order, done) && l !in done && IsCanonical(l)
    ensures OrderOf(order + [l], done + {l})
    ensures WireAll(order + [l]) == PutOn(WireAll(order), l)
  {
    hide IsCanonical, SpecOf, ParseLink, FormatLink, PutOn;
    var more := order + [l];
    assert more[..|more| - 1] == order;
    assert l !in order;
  }

  lemma EndsOne(done: set<string>, link: string, links: set<string>, names: set<string>)
    requires EndsIn(done, names) && link in links && IsCanonical(link)
    ensures SpecOf(link).from in names && SpecOf(link).to in names ==> EndsIn(done + {link}, names)
    ensures EndsIn(links, names) ==> SpecOf(link).from in names && SpecOf(link).to in names
  {
    hide SpecOf, IsCanonical, ParseLink, FormatLink;
  }

  // The apps are those of the configuration. Those that keep their identity keep
  // their instance, and every other one is new.
  ghost predicate Restarted(a: map<string, AppState>, z: map<string, AppState>, apps: map<string, AppArg>) {
    && z.Keys == apps.Keys
    && (forall n :: n in z ==> z[n].conf.identity == apps[n].identity)
    && (forall n :: Keeps(a, apps, n) ==> n in z && z[n].app == a[n].app && z[n].conf == a[n].conf)
    && NewApps(z, apps, set n | n in z && !Keeps(a, apps, n))
  }

  lemma RestartedKeys(a: map<string, AppState>, z: map<string, AppState>, apps: map<string, AppArg>)
    requires Restarted(a, z, apps)
    ensures z.Keys == apps.Keys
  {
  }

  lemma TidyParts(t: Tables)
    requires Tidy(t)
    ensures Named(t) && Sound(t)
  {
  }

  lemma NamedStays(t: Tables, u: Tables)
    requires Named(t) && u.links == t.links
    ensures Named(u)
  {
  }

  // The kept apps as they were, and a new one for every other name.
  ghost predicate KeptAnd(kept: map<string, AppState>, z: map<string, AppState>, apps: map<string, AppArg>) {
    && z.Keys == kept.Keys + apps.Keys
    && (forall n :: n in kept ==> z[n] == kept[n])
    && NewApps(z, apps, z.Keys - kept.Keys)
  }

  lemma RestartedBy(a: Tables, unlinked: Tables, z: map<string, AppState>, apps: map<string, AppArg>)
    requires SameApps(a, unlinked) && KeptAnd(KeptApps(unlinked.apps, apps), z, apps)
    ensures Restarted(a.apps, z, apps)
    ensures forall n :: n in KeptApps(unlinked.apps, apps) <==> Keeps(a.apps, apps, n)
  {
    hide NewApps, KeptApps, Keeps, SameApps;
    var kept := KeptApps(unlinked.apps, apps);
    forall n
      ensures n in kept <==> Keeps(a.apps, apps, n)
      ensures n in kept ==> n in z && n in a.apps && z[n].app == a.apps[n].app && z[n].conf == a.apps[n].conf
      ensures n in kept ==> n in apps && z[n].conf.identity == apps[n].identity
    {
      KeptIs(a, unlinked, apps, n);
    }
    assert (set n | n in z && !Keeps(a.apps, apps, n)) == z.Keys - kept.Keys;
  }

  lemma KeptIs(a: Tables, u: Tables, apps: map<string, AppArg>, n: string)
    requires SameApps(a, u)
    ensures n in KeptApps(u.apps, apps) <==> Keeps(a.apps, apps, n)
    ensures Keeps(a.apps, apps, n) ==>
              var st := KeptApps(u.apps, apps)[n];
              && n in a.apps && st.app == a.apps[n].app && st.conf == a.apps[n].conf
              && n in apps && st.conf.identity == apps[n].identity
  {
  }

  lemma RestartedBuilt(a: Tables, started: Tables, z: Tables, apps: map<string, AppArg>, order: seq<string>)
    requires Restarted(a.apps, started.apps, apps) && SameApps(started, z)
    requires Tidy(z) && OrderOf(order, z.links.Keys) && WiredTo(z, WireAll(order))
    ensures Built(z, apps, z.links.Keys, order) && Restarted(a.apps, z.apps, apps)
    ensures forall n :: n in z.apps ==> n in started.apps && z.apps[n].app == started.apps[n].app
  {
    hide Restarted, SameApps, Sound, Named, Anchored, OrderOf, WireAll, WiredTo, PortsAre;
    PortsDecided(z, order);
    RestartedSame(a.apps, started, z, apps);
  }

  lemma RestartedSame(a: map<string, AppState>, t: Tables, u: Tables, apps: map<string, AppArg>)
    requires Restarted(a, t.apps, apps) && SameApps(t, u)
    ensures Restarted(a, u.apps, apps) && u.apps.Keys == apps.Keys
    ensures forall n :: n in u.apps ==> u.apps[n].conf.identity == apps[n].identity
    ensures forall n :: n in u.apps ==> n in t.apps && u.apps[n].app == t.apps[n].app
  {
    hide NewApps, Keeps;
    NewAppsSame(t.apps, u.apps, apps, set n | n in u.apps && !Keeps(a, apps, n));
    assert (set n | n in u.apps && !Keeps(a, apps, n)) == (set n | n in t.apps && !Keeps(a, apps, n));
  }

  lemma NewAppsSame(before: map<string, AppState>, now: map<string, AppState>, apps: map<string, AppArg>,
                    names: set<string>)
    requires forall n :: n in before ==> n in now && now[n].app == before[n].app && now[n].conf == before[n].conf
    ensures NewApps(before, apps, names) ==> NewApps(now, apps, names)
  {
    hide RunsAs;
  }

  lemma KeptWhenMatching(t: Tables, apps: map<string, AppArg>, links: set<string>)
    requires Matches(t, apps, links)
    ensures KeptApps(t.apps, apps) == t.apps && t.links.Keys == links && t.apps.Keys == apps.Keys
  {
    hide WiredUp, Sound, Named;
    forall n | n in t.apps
      ensures SameIdentity(t.apps[n], apps, n)
    {
    }
  }

  function ParsedSpec(link: string): (spec: LinkSpec)
    requires IsCanonical(link)
    ensures spec == SpecOf(link)
  {
    ParseLink(link).spec
  }

  lemma SuccessorsMore(done: set<string>, link: string)
    requires IsCanonical(link) && forall l :: l in done ==> IsCanonical(l)
    ensures SourcesOf(done + {link}) == SourcesOf(done) + {SpecOf(link).from}
    ensures forall x :: TargetsOf(done + {link}, x)
              == TargetsOf(done, x) + (if x == SpecOf(link).from then {SpecOf(link).to} else {})
    ensures forall x :: x !in SourcesOf(done) ==> TargetsOf(done, x) == {}
  {
    hide SpecOf, IsCanonical, ParseLink, FormatLink;
  }

  lemma NoSources()
    ensures SourcesOf({}) == {}
  {
  }

  // `successors.entry(from).or_insert(HashSet::new()).insert(to)`
  function WithTarget(successors: map<string, set<string>>, from: string, to: string): map<string, set<string>> {
    successors[from := (if from in successors then successors[from] else {}) + {to}]
  }

  lemma AddedTarget(done: set<string>, link: string, successors: map<string, set<string>>)
    requires IsCanonical(link) && forall l :: l in done ==> IsCanonical(l)
    requires successors.Keys == SourcesOf(done)
    requires forall x :: x in successors ==> successors[x] == TargetsOf(done, x)
    ensures var more := WithTarget(successors, SpecOf(link).from, SpecOf(link).to);
            && more.Keys == SourcesOf(done + {link})
            && (forall x :: x in more ==> more[x] == TargetsOf(done + {link}, x))
  {
    hide SpecOf, IsCanonical, ParseLink, FormatLink, SourcesOf, TargetsOf;
    SuccessorsMore(done, link);
  }

  // The lists of callbacks: the pull apps sorted, and `exhale` as these rounds
  // leave it.
  ghost predicate Ordered(net: B.Net, inhale: seq<string>, exhale: seq<string>, t: seq<B.Round>) {
    && B.Sorted(inhale) && B.Distinct(inhale) && B.Names(inhale) == net.pull
    && B.Complete(net, t) && B.Final(t).exhale == exhale && B.Exhaled(net, exhale)
  }

  // ---- The engine ----

  class EngineState {
    var linkTable: map<string, Link>
    var appTable: map<string, AppState>
    var inhale: seq<string>
    var exhale: seq<string>
    // The apps whose stop callback ran, in order.
    ghost var stopCalls: seq<App>

    ghost function T(): Tables
      reads this
    {
      Tables(linkTable, appTable)
    }

    constructor ()
      ensures linkTable == map[] && appTable == map[] && inhale == [] && exhale == []
    {
      linkTable, appTable, inhale, exhale, stopCalls := map[], map[], [], [], [];
    }

    // Whether the reference count of a link is still above zero.
    method StillReferenced(link: Link) returns (r: bool)
      ensures r <==> Referenced(T(), link)
    {
      r := (exists l :: l in linkTable && linkTable[l] == link)
        || (exists n :: n in appTable && link in appTable[n].output.Values)
        || (exists n :: n in appTable && link in appTable[n].input.Values);
    }

    // Takes one link out of the tables. False is a failed unwrap or parse. The
    // link itself lives on: `configure` holds a clone of the link table.
    method UnlinkApps(spec: string) returns (ok: bool)
      requires spec in linkTable && Tidy(T())
      modifies this`linkTable, this`appTable
      ensures ok && T() == Unlinked(old(T()), spec) && linkTable == old(linkTable) - {spec}
      ensures Tidy(T()) && SameApps(old(T()), T()) && !Referenced(T(), old(linkTable[spec]))
    {
      hide Tidy, Wired, Referenced, SameApps, ParseLink, FormatLink;
      UnlinkKeeps(T(), spec);
      linkTable := linkTable - {spec};
      var parsed := ParseLink(spec);
      if parsed.NoMatch? {
        return false;
      }
      var s := parsed.spec;
      assert s == SpecOf(spec);
      if s.from !in appTable {
        return false;
      }
      var from := appTable[s.from];
      appTable := appTable[s.from := from.(output := from.output - {s.output})];
      if s.to !in appTable {
        return false;
      }
      var to := appTable[s.to];
      appTable := appTable[s.to := to.(input := to.input - {s.input})];
      assert T() == Unlinked(old(T()), spec);
      ok := true;
    }

    // Takes the links out of the tables that the configuration does not name.
    method UnlinkAll(config: Configuration) returns (ok: bool)
      requires Tidy(T())
      modifies this`linkTable, this`appTable
      ensures ok && Tidy(T()) && SameApps(old(T()), T())
      ensures linkTable == NamedBy(old(linkTable), config.links)
      ensures old(linkTable.Keys) <= config.links ==> T() == old(T())
    {
      hide Tidy, SameApps, NamedBy, Unlinked, Referenced, SpecOf, IsCanonical, ParseLink, FormatLink;
      ghost var before, t := linkTable, T();
      SameAppsSelf(t);
      ok := true;
      var rest := linkTable.Keys;
      NamedAll(before, config.links);
      while rest != {}
        invariant ok && Tidy(T()) && SameApps(t, T()) && rest <= before.Keys
        invariant linkTable == NamedBy(before, config.links + rest)
        invariant before.Keys <= config.links ==> T() == t
        decreases rest
      {
        var link :| link in rest;
        assert link in linkTable by {
          NamedIn(before, config.links + rest, link);
        }
        if link !in config.links {
          ghost var earlier := T();
          ok := UnlinkApps(link);
          SameAppsTrans(t, earlier, T());
        }
        NamedLess(before, config.links, rest, link);
        rest := rest - {link};
      }
      assert config.links + {} == config.links;
    }

    // The clone of the link table goes out of scope. With the last reference gone
    // a link is dropped and frees what is still queued on it.
    method DropClone(clone: map<string, Link>, ghost links: set<string>, fl: Freelist)
      returns (ghost gone: seq<string>, ghost freed: seq<Packet>)
      requires Tidy(T()) && LinksOk(clone, fl) && linkTable == NamedBy(clone, links)
      modifies set l | l in clone :: clone[l], fl, fl.list
      ensures LinksOk(linkTable, fl)
      ensures Continued(clone, old(QueuesOf(clone)), links, linkTable, QueuesOf(linkTable))
      ensures FreedWith(old(QueuesOf(clone)), links, gone, freed, old(fl.Abs()), fl.Abs())
    {
      hide Tidy, Link.Queue, LinksOk, FreedAll, Freelist.Valid, Joined, GoneSoFar, B.Distinct, B.Names, Referenced,
           Sound, Named, Anchored, JoinedSoFar, FreedWith, Continued, QueuesOf, NamedBy;
      QueuesAre(clone);
      ghost var queues, pool, left := QueuesOf(clone), fl.Abs(), clone;
      gone, freed := [], [];
      var rest := clone.Keys;
      NoneGone(clone.Keys, links);
      NoneJoined(queues, pool);
      KeptReferenced(T(), clone, links, fl);
      while rest != {}
        invariant left.Keys <= clone.Keys && LinksOk(left, fl)
        invariant forall k :: k in left ==> left[k] == clone[k] && left[k].Queue() == queues[k]
        invariant GoneSoFar(clone.Keys, left.Keys, links, rest, gone)
        invariant JoinedSoFar(queues, gone, freed, pool, fl.Abs())
        decreases rest
      {
        var name :| name in rest;
        StillThere(clone.Keys, left.Keys, links, rest, gone, name);
        ghost var before := fl.Abs();
        var dropped := DropUnheld(clone[name], left, name, fl);
        if dropped {
          left := left - {name};
          OneJoined(queues, gone, freed, pool, before, name);
          freed := freed + queues[name];
          gone := gone + [name];
        }
        rest := rest - {name};
      }
      AllGone(clone.Keys, left.Keys, links, gone);
      AllJoined(queues, links, gone, freed, pool, fl.Abs());
      LeftOver(clone, left, links, linkTable);
      QueuesAre(linkTable);
      ContinuedAs(clone, queues, links, linkTable, QueuesOf(linkTable));
    }

    // One reference of the clone goes.
    method DropUnheld(link: Link, ghost left: map<string, Link>, ghost name: string, fl: Freelist)
      returns (dropped: bool)
      requires LinksOk(left, fl) && name in left && left[name] == link
      modifies left[name], fl, fl.list
      ensures dropped <==> !Referenced(T(), link)
      ensures LinksOk(if dropped then left - {name} else left, fl)
      ensures fl.Abs() == if dropped then FreedAll(old(fl.Abs()), old(left[name].Queue())) else old(fl.Abs())
      ensures forall k :: k in left && (k != name || !dropped) ==> left[k].Queue() == old(left[k].Queue())
    {
      hide Link.Queue, LinksOk, FreedAll, Freelist.Valid, Referenced;
      var held := StillReferenced(link);
      dropped := !held;
      if dropped {
        DropLink(link, left, name, fl);
      }
    }

    // `configure`, up to the apps: the links that go.
    method UnlinkGone(config: Configuration, fl: Freelist)
      returns (ok: bool, ghost gone: seq<string>, ghost freed: seq<Packet>)
      requires Tidy(T()) && LinksOk(linkTable, fl)
      modifies this`linkTable, this`appTable, set l | l in linkTable :: linkTable[l], fl, fl.list
      ensures ok && Tidy(T()) && SameApps(old(T()), T()) && LinksOk(linkTable, fl)
      ensures linkTable == NamedBy(old(linkTable), config.links)
      ensures Continued(old(linkTable), old(QueuesOf(linkTable)), config.links, linkTable, QueuesOf(linkTable))
      ensures FreedWith(old(QueuesOf(linkTable)), config.links, gone, freed, old(fl.Abs()), fl.Abs())
      ensures old(linkTable.Keys) <= config.links ==> T() == old(T())
    {
      hide Tidy, LinksOk, Link.Queue, SameApps, Freelist.Valid, Continued, FreedWith, NamedBy;
      var clone := linkTable;
      ok := UnlinkAll(config);
      gone, freed := DropClone(clone, config.links, fl);
    }

    // An app goes, and its stop callback runs if it has one. False is a failed
    // unwrap.
    method StopApp(name: string) returns (ok: bool)
      modifies this`appTable, this`stopCalls
      ensures ok <==> name in old(appTable)
      ensures ok ==> T() == Stopped(old(T()), name)
      ensures ok && old(appTable)[name].app.hasStop ==> stopCalls == old(stopCalls) + [old(appTable)[name].app]
      ensures ok && !old(appTable)[name].app.hasStop ==> stopCalls == old(stopCalls)
      ensures !ok ==> T() == old(T())
    {
      if name !in appTable {
        return false;
      }
      var removed := appTable[name];
      appTable := appTable - {name};
      if removed.app.hasStop {
        stopCalls := stopCalls + [removed.app];
      }
      ok := true;
    }

    // A fresh instance without ports.
    method StartApp(name: string, conf: AppArg) returns (ghost app: App)
      modifies this`appTable
      ensures T() == Started(old(T()), name, app, conf) && fresh(app) && RunsAs(app, conf)
    {
      var instance := new App(conf);
      app := instance;
      appTable := appTable[name := AppState(instance, conf, map[], map[])];
    }

    // Stops the apps that are not configured, or have another identity now, each
    // once, and no other.
    method StopChanged(config: Configuration) returns (ok: bool, ghost stopped: seq<string>)
      requires Sound(T())
      modifies this`appTable, this`stopCalls
      ensures ok && Sound(T())
      ensures appTable == KeptApps(old(appTable), config.apps)
      ensures StopsRun(old(appTable), config.apps, stopped, old(stopCalls), stopCalls)
    {
      hide Sound, Running, Calls, StoppedAre;
      ghost var before := appTable;
      stopped := [];
      var rest := appTable.Keys;
      ok := true;
      NoneStopped(before, config.apps);
      while rest != {}
        invariant ok && Sound(T()) && rest <= before.Keys
        invariant appTable == Running(before, config.apps, rest) && StoppedAre(before, appTable.Keys, stopped)
        invariant stopCalls == old(stopCalls) + Calls(before, stopped)
        decreases rest
      {
        var name :| name in rest;
        StoppedNext(before, config.apps, rest, stopped, name);
        rest := rest - {name};
        var identity := appTable[name].conf.identity;
        if name !in config.apps || identity != config.apps[name].identity {
          StopSound(T(), name);
          CallsPush(before, stopped, name);
          ok := StopApp(name);
          stopped := stopped + [name];
        }
      }
      AllStopped(before, config.apps, stopped);
      StopsAre(before, config.apps, stopped, old(stopCalls), stopCalls);
    }

    // Every configured app that is not running gets an instance.
    method StartNew(config: Configuration)
      requires Sound(T())
      modifies this`appTable
      ensures Sound(T()) && appTable.Keys == old(appTable.Keys) + config.apps.Keys
      ensures forall n :: n in old(appTable) ==> appTable[n] == old(appTable)[n]
      // Each of them is new, another one for every name, and has the callbacks of
      // its configuration.
      ensures forall n :: n in appTable && n !in old(appTable) ==> fresh(appTable[n].app)
      ensures NewApps(appTable, config.apps, appTable.Keys - old(appTable.Keys))
      ensures config.apps.Keys <= old(appTable.Keys) ==> appTable == old(appTable)
    {
      hide Sound, StartedSome, NewApps, RunsAs;
      ghost var before := appTable;
      var rest := config.apps.Keys;
      NoneStarted(before, config.apps);
      while rest != {}
        invariant Sound(T()) && rest <= config.apps.Keys && StartedSome(before, appTable, config.apps, rest)
        invariant forall n :: n in appTable && n !in before ==> fresh(appTable[n].app)
        decreases rest
      {
        var name :| name in rest;
        ghost var t := T();
        if name !in appTable {
          ghost var app := StartApp(name, config.apps[name]);
          StartSound(t, name, app, config.apps[name]);
        }
        OneStarted(before, t.apps, appTable, config.apps, rest, name);
        rest := rest - {name};
      }
      AllStarted(before, appTable, config.apps);
    }

    // The link of that name, or a new one.
    method EntryOrNew(spec: string, ghost fl: Freelist) returns (link: Link)
      requires LinksOk(linkTable, fl)
      modifies this`linkTable
      ensures linkTable == old(linkTable)[spec := link] && LinksOk(linkTable, fl) && Fits(old(T()), spec, link)
      ensures spec !in old(linkTable) ==> fresh(link)
      ensures spec in old(linkTable) ==> linkTable == old(linkTable)
    {
      hide LinksOk, Link.Queue;
      if spec in linkTable {
        link := linkTable[spec];
        assert linkTable == linkTable[spec := link];
      } else {
        link := new Link();
        LinksOkAdd(linkTable, spec, link, fl);
        linkTable := linkTable[spec := link];
      }
    }

    // Puts a link, the one of that name or a new one, on its two ports. False is a
    // failed unwrap or parse.
    method LinkApps(spec: string, ghost ports: map<Port, string>, ghost fl: Freelist) returns (ok: bool)
      requires IsCanonical(spec) && Named(T()) && Sound(T()) && WiredTo(T(), ports) && LinksOk(linkTable, fl)
      modifies this`linkTable, this`appTable
      ensures ok <==> SpecOf(spec).from in old(appTable) && SpecOf(spec).to in old(appTable)
      ensures LinksOk(linkTable, fl)
      ensures ok ==> Named(T()) && Sound(T()) && WiredTo(T(), PutOn(ports, spec))
      ensures ok ==> SameApps(old(T()), T()) && linkTable.Keys == old(linkTable.Keys) + {spec}
      ensures forall k :: k in old(linkTable) ==> k in linkTable && linkTable[k] == old(linkTable)[k]
      ensures forall k :: k in linkTable && k !in old(linkTable) ==> fresh(linkTable[k])
      ensures ok && old(WiredOut(T(), spec) && WiredIn(T(), spec)) ==> T() == old(T())
      ensures appTable.Keys == old(appTable.Keys)
    {
      hide Named, Sound, WiredTo, LinksOk, SameApps, WiredOut, WiredIn, ParseLink, FormatLink, Link.Queue, PutOn,
           WithLink, Fits, Freelist.Valid, SpecOf, IsCanonical;
      ghost var t := T();
      var link := EntryOrNew(spec, fl);
      CanonicalParses(spec);
      var parsed := ParseLink(spec);
      if parsed.NoMatch? {
        assert false;
      }
      var s := parsed.spec;
      if s.from !in appTable {
        return false;
      }
      var from := appTable[s.from];
      appTable := appTable[s.from := from.(output := from.output[s.output := link])];
      if s.to !in appTable {
        return false;
      }
      var to := appTable[s.to];
      appTable := appTable[s.to := to.(input := to.input[s.input := link])];
      ok := true;
      LinkedBy(t, spec, link, T());
      LinkKeeps(t, spec, link, ports);
      LinkedAgain(t, spec, link);
    }

    // Puts the configured links on their ports, in some order.
    method LinkAll(config: Configuration, ghost fl: Freelist) returns (ok: bool, ghost order: seq<string>)
      requires config.Valid() && linkTable.Keys <= config.links
      requires Named(T()) && Sound(T()) && LinksOk(linkTable, fl)
      modifies this`linkTable, this`appTable
      ensures ok <==> EndsIn(config.links, old(appTable.Keys))
      ensures LinksOk(linkTable, fl)
      ensures ok ==> Tidy(T()) && SameApps(old(T()), T()) && linkTable.Keys == config.links
      ensures ok ==> OrderOf(order, config.links) && WiredTo(T(), WireAll(order))
      ensures forall k :: k in old(linkTable) ==> k in linkTable && linkTable[k] == old(linkTable)[k]
      ensures forall k :: k in linkTable && k !in old(linkTable) ==> fresh(linkTable[k])
      ensures ok && old(linkTable.Keys) == config.links && old(WiredUp(T(), linkTable.Keys)) ==> T() == old(T())
    {
      hide Named, Sound, LinksOk, SameApps, SpecOf, IsCanonical, ParseLink, Link.Queue, EndsIn, WiredUp, Tidy,
           WireAll, WiredTo, OrderOf, Anchored, WiredOut, WiredIn, PutOn, Freelist.Valid, FormatLink, LinkedSome;
      ghost var t, done := T(), {};
      NoneLinked(t, config.links);
      var rest := config.links;
      ok, order := true, [];
      while rest != {}
        invariant ok && rest <= config.links && done == config.links - rest
        invariant LinksOk(linkTable, fl) && LinkedSome(t, T(), config.links, done, order)
        invariant forall k :: k in t.links ==> k in linkTable && linkTable[k] == t.links[k]
        invariant forall k :: k in linkTable && k !in t.links ==> fresh(linkTable[k])
        decreases rest
      {
        var link :| link in rest;
        rest := rest - {link};
        ghost var u := T();
        BeforeLinking(t, u, config.links, done, order, link);
        ok := LinkApps(link, WireAll(order), fl);
        if !ok {
          return;
        }
        OneLinked(t, u, T(), config.links, done, order, link);
        done := done + {link};
        order := order + [link];
      }
      assert done == config.links;
      AllLinked(t, T(), config.links, order);
    }

    // The links between apps by source, as the breathe order follows them.
    method BuildSuccessors() returns (successors: map<string, set<string>>)
      requires Named(T())
      ensures successors == NetOf(T()).succ
    {
      hide SpecOf, IsCanonical, ParseLink, FormatLink, WithTarget, SourcesOf, TargetsOf;
      NoSources();
      successors := map[];
      var rest := linkTable.Keys;
      ghost var done := {};
      while rest != {}
        invariant rest <= linkTable.Keys && done == linkTable.Keys - rest
        invariant forall l :: l in done ==> IsCanonical(l)
        invariant successors.Keys == SourcesOf(done)
        invariant forall x :: x in successors ==> successors[x] == TargetsOf(done, x)
        decreases rest
      {
        var link :| link in rest;
        rest := rest - {link};
        assert IsCanonical(link);
        AddedTarget(done, link, successors);
        done := done + {link};
        var spec := ParsedSpec(link);
        successors := WithTarget(successors, spec.from, spec.to);
      }
      assert done == linkTable.Keys;
    }

    // The order of callbacks: `inhale`, and `exhale` as some run of rounds leaves it.
    method ComputeBreatheOrder() returns (ghost t: seq<B.Round>)
      requires Tidy(T())
      modifies this`inhale, this`exhale
      ensures Ordered(NetOf(T()), inhale, exhale, t)
      // By the tables alone: the pull apps, and push apps that packets get to.
      ensures forall x :: x in inhale <==> x in appTable && appTable[x].app.hasPull
      ensures forall x :: x in exhale ==> x in appTable && appTable[x].app.hasPush
      ensures Breathes(T(), inhale, exhale)
      // No lookup on the way fails.
      ensures forall x, y :: B.Linked(NetOf(T()), x, y) ==> y in appTable
    {
      hide Sound, WiredUp, B.Complete, B.Exhaled, Carried, LinkLeads, LinkedToItself;
      forall x, y | B.Linked(NetOf(T()), x, y)
        ensures y in appTable
      {
        SuccessorsFound(T(), x, y);
      }
      var successors := BuildSuccessors();
      var names := L.Iterate(set n | n in appTable && appTable[n].app.hasPull);
      B.SortKeeps(names);
      inhale := B.Sort(names);
      var pushers := set n | n in appTable && appTable[n].app.hasPush;
      exhale, t := L.PushOrder(B.Net(B.Names(inhale), pushers, successors), inhale);
      BreathesBy(T(), inhale, exhale);
    }

    // From any tidy network, so from any that a configuration left before, to the
    // configured one. False is a panic: an end of a link is not a configured app.
    method Configure(config: Configuration, fl: Freelist)
      returns (ok: bool, ghost gone: seq<string>, ghost freed: seq<Packet>, ghost order: seq<string>,
               ghost stopped: seq<string>, ghost t: seq<B.Round>)
      requires config.Valid() && Tidy(T()) && LinksOk(linkTable, fl)
      modifies this, set l | l in linkTable :: linkTable[l], fl, fl.list
      ensures ok <==> EndsIn(config.links, config.apps.Keys)
      ensures ok ==> Built(T(), config.apps, config.links, order)
      ensures ok && NoSharedPorts(config.links) ==> Matches(T(), config.apps, config.links)
      // Continuity: what stays is the same link with the same packets, and the
      // same app instance; every other link is a new one.
      ensures LinksOk(linkTable, fl)
      ensures Continued(old(linkTable), old(QueuesOf(linkTable)), config.links, linkTable, QueuesOf(linkTable))
      ensures ok ==> Restarted(old(appTable), appTable, config.apps)
      ensures ok ==> forall n :: n in appTable && !Keeps(old(appTable), config.apps, n) ==> fresh(appTable[n].app)
      ensures forall k :: k in linkTable && k !in old(linkTable) ==> fresh(linkTable[k])
      // Every app that is not kept is stopped, and its stop callback runs once.
      ensures StopsRun(old(appTable), config.apps, stopped, old(stopCalls), stopCalls)
      // The packets of every link that goes are freed, each once.
      ensures FreedWith(old(QueuesOf(linkTable)), config.links, gone, freed, old(fl.Abs()), fl.Abs())
      // Applying a configuration again changes neither table.
      ensures ok && old(Matches(T(), config.apps, config.links)) ==> T() == old(T())
      ensures ok ==> Ordered(NetOf(T()), inhale, exhale, t) && Breathes(T(), inhale, exhale)
    {
      hide Keeps, NewApps, StopsRun, Breathes, LinksOk, Link.Queue, NoSharedPorts, EndsIn, Matches, SameIdentity,
           Built, WireAll, Restarted,
           Ordered, NetOf, Freelist.Valid, Tidy, Named, Continued, FreedWith, QueuesOf, SpecOf, IsCanonical;
      t := [];
      ok, gone, freed, order, stopped := Migrate(config, fl);
      if !ok {
        return;
      }
      BuiltParts(T(), config.apps, config.links, order);
      label Migrating:
      t := ComputeBreatheOrder();
      QueuesSame@Migrating(linkTable);
    }

    // Several configurations, one after the other. What the last one says is what
    // there is, whatever came before.
    method ConfigureAll(configs: seq<Configuration>, fl: Freelist) returns (ok: bool, ghost order: seq<string>)
      requires forall i :: 0 <= i < |configs| ==> configs[i].Valid()
      requires Tidy(T()) && LinksOk(linkTable, fl)
      modifies this, set l | l in linkTable :: linkTable[l], fl, fl.list
      ensures ok <==> forall i :: 0 <= i < |configs| ==> EndsIn(configs[i].links, configs[i].apps.Keys)
      ensures ok ==> Tidy(T()) && LinksOk(linkTable, fl)
      ensures ok && configs != [] ==>
                var last := configs[|configs| - 1];
                && Built(T(), last.apps, last.links, order)
                && (NoSharedPorts(last.links) ==> Matches(T(), last.apps, last.links))
                && Breathes(T(), inhale, exhale)
    {
      hide LinksOk, Link.Queue, NoSharedPorts, EndsIn, Matches, SameIdentity, Built, WireAll, Restarted,
           Ordered, NetOf, Freelist.Valid, Tidy, Named, Continued, FreedWith, QueuesOf, Keeps, NewApps, StopsRun,
           Breathes;
      ok, order := true, [];
      ghost var mine := set l | l in linkTable :: linkTable[l];
      for i := 0 to |configs|
        invariant ok && Tidy(T()) && LinksOk(linkTable, fl)
        invariant forall j :: 0 <= j < i ==> EndsIn(configs[j].links, configs[j].apps.Keys)
        invariant forall k :: k in linkTable ==> linkTable[k] in mine || fresh(linkTable[k])
        invariant i > 0 ==> Built(T(), configs[i - 1].apps, configs[i - 1].links, order)
        invariant i > 0 && NoSharedPorts(configs[i - 1].links) ==>
                    Matches(T(), configs[i - 1].apps, configs[i - 1].links)
        invariant i > 0 ==> Breathes(T(), inhale, exhale)
      {
        ghost var gone, freed, stopped, t;
        ghost var before, queues := linkTable, QueuesOf(linkTable);
        ok, gone, freed, order, stopped, t := Configure(configs[i], fl);
        if !ok {
          return;
        }
        BuiltParts(T(), configs[i].apps, configs[i].links, order);
        ContinuedSame(before, queues, configs[i].links, linkTable, QueuesOf(linkTable));
      }
    }

    // Stops and starts.
    method RestartApps(config: Configuration) returns (ok: bool, ghost stopped: seq<string>)
      requires Sound(T())
      modifies this`appTable, this`stopCalls
      ensures ok && Sound(T())
      ensures KeptAnd(KeptApps(old(appTable), config.apps), appTable, config.apps)
      ensures forall n :: n in appTable && n !in KeptApps(old(appTable), config.apps) ==> fresh(appTable[n].app)
      ensures StopsRun(old(appTable), config.apps, stopped, old(stopCalls), stopCalls)
      ensures KeptApps(old(appTable), config.apps) == old(appTable) && config.apps.Keys <= old(appTable.Keys) ==>
                T() == old(T())
    {
      hide Sound, KeptApps, SameIdentity, NewApps, StopsRun;
      ok, stopped := StopChanged(config);
      StartNew(config);
    }

    // Unlinks, stops and starts: everything but the new links.
    method Restart(config: Configuration, fl: Freelist)
      returns (ok: bool, ghost gone: seq<string>, ghost freed: seq<Packet>, ghost stopped: seq<string>)
      requires Tidy(T()) && LinksOk(linkTable, fl)
      modifies this`linkTable, this`appTable, this`stopCalls, set l | l in linkTable :: linkTable[l], fl, fl.list
      ensures ok && Named(T()) && Sound(T()) && LinksOk(linkTable, fl)
      ensures linkTable == NamedBy(old(linkTable), config.links)
      ensures Continued(old(linkTable), old(QueuesOf(linkTable)), config.links, linkTable, QueuesOf(linkTable))
      ensures Restarted(old(appTable), appTable, config.apps)
      ensures forall n :: n in appTable && !Keeps(old(appTable), config.apps, n) ==> fresh(appTable[n].app)
      ensures StopsRun(old(appTable), config.apps, stopped, old(stopCalls), stopCalls)
      ensures FreedWith(old(QueuesOf(linkTable)), config.links, gone, freed, old(fl.Abs()), fl.Abs())
      ensures old(Matches(T(), config.apps, config.links)) ==> T() == old(T())
    {
      hide Sound, Named, Tidy, LinksOk, Link.Queue, Matches, Restarted, KeptAnd, Freelist.Valid, KeptApps,
           SameIdentity, SameApps, Continued, FreedWith, NamedBy, QueuesOf, Keeps, NewApps, StopsRun;
      ghost var a := T();
      ok, gone, freed := UnlinkGone(config, fl);
      ghost var unlinked := T();
      TidyParts(unlinked);
      label Unlinking:
      ok, stopped := RestartApps(config);
      QueuesSame@Unlinking(linkTable);
      NamedStays(unlinked, T());
      RestartedBy(a, unlinked, appTable, config.apps);
      StopsBefore(a, unlinked, config.apps, stopped, old(stopCalls), stopCalls);
      if Matches(a, config.apps, config.links) {
        KeptWhenMatching(a, config.apps, config.links);
      }
    }

    // The table updates of `configure`.
    method Migrate(config: Configuration, fl: Freelist)
      returns (ok: bool, ghost gone: seq<string>, ghost freed: seq<Packet>, ghost order: seq<string>,
               ghost stopped: seq<string>)
      requires config.Valid() && Tidy(T()) && LinksOk(linkTable, fl)
      modifies this`linkTable, this`appTable, this`stopCalls, set l | l in linkTable :: linkTable[l], fl, fl.list
      ensures ok <==> EndsIn(config.links, config.apps.Keys)
      ensures ok ==> Built(T(), config.apps, config.links, order)
      ensures ok && NoSharedPorts(config.links) ==> Matches(T(), config.apps, config.links)
      ensures LinksOk(linkTable, fl)
      ensures Continued(old(linkTable), old(QueuesOf(linkTable)), config.links, linkTable, QueuesOf(linkTable))
      ensures ok ==> Restarted(old(appTable), appTable, config.apps)
      ensures ok ==> forall n :: n in appTable && !Keeps(old(appTable), config.apps, n) ==> fresh(appTable[n].app)
      ensures StopsRun(old(appTable), config.apps, stopped, old(stopCalls), stopCalls)
      ensures forall k :: k in linkTable && k !in old(linkTable) ==> fresh(linkTable[k])
      ensures FreedWith(old(QueuesOf(linkTable)), config.links, gone, freed, old(fl.Abs()), fl.Abs())
      ensures ok && old(Matches(T(), config.apps, config.links)) ==> T() == old(T())
    {
      hide Sound, Named, WiredUp, LinksOk, Link.Queue, NoSharedPorts, EndsIn, Matches, Restarted, Freelist.Valid,
           SameApps, Built, WireAll, WiredTo, Tidy, OrderOf, Continued, FreedWith, IsCanonical, QueuesOf,
           SpecOf, Keeps, NewApps, StopsRun;
      ghost var a := T();
      order := [];
      ok, gone, freed, stopped := Restart(config, fl);
      ghost var started, queues := T(), QueuesOf(linkTable);
      RestartedKeys(a.apps, started.apps, config.apps);
      label Restarting:
      ok, order := LinkAll(config, fl);
      QueuesSame@Restarting(started.links);
      QueuesPart(started.links, linkTable);
      ContinuedOn(a.links, old(QueuesOf(linkTable)), config.links, started.links, queues,
                  linkTable, QueuesOf(linkTable));
      if ok {
        MigratedBuilt(a, started, T(), config.apps, config.links, order);
      }
    }
  }

  lemma MigratedBuilt(a: Tables, started: Tables, z: Tables, apps: map<string, AppArg>, links: set<string>,
                      order: seq<string>)
    requires Restarted(a.apps, started.apps, apps) && SameApps(started, z) && z.links.Keys == links
    requires Tidy(z) && OrderOf(order, links) && WiredTo(z, WireAll(order))
    ensures Built(z, apps, links, order) && Restarted(a.apps, z.apps, apps)
    ensures NoSharedPorts(links) ==> Matches(z, apps, links)
    ensures forall n :: n in z.apps ==> n in started.apps && z.apps[n].app == started.apps[n].app
    ensures Matches(a, apps, links) ==> a.links.Keys == links && WiredUp(a, links)
  {
    hide Restarted, SameApps, Tidy, Built, Matches, OrderOf, WireAll, WiredTo, NoSharedPorts;
    RestartedBuilt(a, started, z, apps, order);
    if NoSharedPorts(links) {
      BuiltMatches(z, apps, links, order);
    }
    if Matches(a, apps, links) {
      MatchesParts(a, apps, links);
    }
  }

  lemma MatchesParts(t: Tables, apps: map<string, AppArg>, links: set<string>)
    requires Matches(t, apps, links)
    ensures t.links.Keys == links && WiredUp(t, links)
  {
  }

  lemma BuiltParts(t: Tables, apps: map<string, AppArg>, links: set<string>, order: seq<string>)
    requires Built(t, apps, links, order)
    ensures Tidy(t) && t.links.Keys == links
  {
  }

  // Which links are left, and which are gone, half-way through the removal.
  ghost predicate GoneSoFar(before: set<string>, now: set<string>, links: set<string>, rest: set<string>,
                            gone: seq<string>)
    ensures GoneSoFar(before, now, links, rest, gone) ==> forall k :: k in gone ==> k in before
  {
    && rest <= before && now == rest + (before * links)
    && B.Distinct(gone) && B.Names(gone) == before - links - rest
    && (forall k :: k in gone ==> k in before)
  }

  lemma NoneGone(before: set<string>, links: set<string>)
    ensures GoneSoFar(before, before, links, before, [])
  {
  }

  lemma StillThere(before: set<string>, now: set<string>, links: set<string>, rest: set<string>,
                   gone: seq<string>, link: string)
    requires GoneSoFar(before, now, links, rest, gone) && link in rest
    ensures link in now && link in before
    ensures link in links ==> GoneSoFar(before, now, links, rest - {link}, gone)
    ensures link !in links ==> GoneSoFar(before, now - {link}, links, rest - {link}, gone + [link])
  {
    B.NoNames(gone);
    B.NamesPush(gone, link);
    if link in links {
      assert before - links - rest == before - links - (rest - {link});
    }
  }

  lemma AllGone(before: set<string>, now: set<string>, links: set<string>, gone: seq<string>)
    requires GoneSoFar(before, now, links, {}, gone)
    ensures now == before * links && B.Distinct(gone) && B.Names(gone) == before - links
    ensures forall k :: k in gone ==> k in before
  {
  }

  lemma JoinedPush(queues: map<string, seq<Packet>>, names: seq<string>, l: string)
    requires l in queues && forall k :: k in names ==> k in queues
    ensures Joined(queues, names + [l]) == Joined(queues, names) + queues[l]
  {
    var more := names + [l];
    assert more[..|more| - 1] == names && more[|more| - 1] == l;
  }

  // What the links gone so far held, and what freeing it made of the freelist.
  ghost predicate JoinedSoFar(queues: map<string, seq<Packet>>, gone: seq<string>, freed: seq<Packet>,
                              pool: Pool, pool': Pool)
  {
    (forall k :: k in gone ==> k in queues) && freed == Joined(queues, gone) && pool' == FreedAll(pool, freed)
  }

  lemma NoneJoined(queues: map<string, seq<Packet>>, pool: Pool)
    ensures JoinedSoFar(queues, [], [], pool, pool)
  {
  }

  lemma OneJoined(queues: map<string, seq<Packet>>, gone: seq<string>, freed: seq<Packet>,
                  pool: Pool, pool': Pool, l: string)
    requires JoinedSoFar(queues, gone, freed, pool, pool') && l in queues
    ensures JoinedSoFar(queues, gone + [l], freed + queues[l], pool, FreedAll(pool', queues[l]))
  {
    hide FreedAll;
    JoinedPush(queues, gone, l);
    FreedAllJoin(pool, freed, queues[l]);
  }

  lemma AllJoined(queues: map<string, seq<Packet>>, links: set<string>, gone: seq<string>, freed: seq<Packet>,
                  pool: Pool, pool': Pool)
    requires JoinedSoFar(queues, gone, freed, pool, pool')
    requires B.Distinct(gone) && B.Names(gone) == queues.Keys - links
    ensures FreedWith(queues, links, gone, freed, pool, pool')
  {
    hide FreedAll, Joined;
  }

  lemma SameAppsSelf(t: Tables)
    ensures SameApps(t, t)
  {
  }

  lemma SameAppsTrans(t: Tables, u: Tables, v: Tables)
    requires SameApps(t, u) && SameApps(u, v)
    ensures SameApps(t, v)
  {
  }
}
