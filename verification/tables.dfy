// The link table and the app table of src/engine.rs as values: what the four
// table operations do to the wiring, and when the wiring is decided by the
// configuration alone.
module NetworkTables {
  import opened Config
  import opened Links
  import opened Sets

  // A running app: which callbacks it has.
  class App {
    const hasPull: bool
    const hasPush: bool
    const hasStop: bool

    constructor (conf: AppArg)
      ensures hasPull == conf.hasPull && hasPush == conf.hasPush && hasStop == conf.hasStop
    {
      hasPull, hasPush, hasStop := conf.hasPull, conf.hasPush, conf.hasStop;
    }
  }

  datatype AppState = AppState(app: App, conf: AppArg, input: map<string, Link>, output: map<string, Link>)

  datatype Tables = Tables(links: map<string, Link>, apps: map<string, AppState>)

  // ---- Wiring ----

  // The port entries that link `l` stands for.
  ghost predicate WiredOut(t: Tables, l: string) {
    && l in t.links && IsCanonical(l) && SpecOf(l).from in t.apps
    && SpecOf(l).output in t.apps[SpecOf(l).from].output
    && t.apps[SpecOf(l).from].output[SpecOf(l).output] == t.links[l]
  }

  ghost predicate WiredIn(t: Tables, l: string) {
    && l in t.links && IsCanonical(l) && SpecOf(l).to in t.apps
    && SpecOf(l).input in t.apps[SpecOf(l).to].input
    && t.apps[SpecOf(l).to].input[SpecOf(l).input] == t.links[l]
  }

  ghost predicate OutOf(t: Tables, l: string, n: string, p: string)
    ensures OutOf(t, l, n, p) ==> l in t.links
  {
    l in t.links && IsCanonical(l) && SpecOf(l).from == n && SpecOf(l).output == p
  }

  ghost predicate Into(t: Tables, l: string, n: string, p: string)
    ensures Into(t, l, n, p) ==> l in t.links
  {
    l in t.links && IsCanonical(l) && SpecOf(l).to == n && SpecOf(l).input == p
  }

  // Every port entry is the link of the table that names the port.
  ghost predicate Sound(t: Tables) {
    && (forall n, p :: n in t.apps && p in t.apps[n].output ==>
          exists l :: OutOf(t, l, n, p) && t.links[l] == t.apps[n].output[p])
    && (forall n, p :: n in t.apps && p in t.apps[n].input ==>
          exists l :: Into(t, l, n, p) && t.links[l] == t.apps[n].input[p])
  }

  // The table names each link object once, in canonical form.
  ghost predicate Named(t: Tables) {
    && (forall l :: l in t.links ==> IsCanonical(l))
    && (forall a, b :: a in t.links && b in t.links && t.links[a] == t.links[b] ==> a == b)
  }

  ghost predicate WiredUp(t: Tables, part: set<string>) {
    forall l :: l in part ==> WiredOut(t, l) && WiredIn(t, l)
  }

  // Both ends of every link are in the app table.
  ghost predicate Anchored(t: Tables) {
    forall l :: l in t.links && IsCanonical(l) ==> SpecOf(l).from in t.apps && SpecOf(l).to in t.apps
  }

  // What every successful configuration leaves: no port entry is wrong and no
  // link dangles. Where two links use one port, only one of them is behind it.
  ghost predicate Tidy(t: Tables) {
    Named(t) && Sound(t) && Anchored(t)
  }

  // Link table and ports agree entirely.
  ghost predicate Wired(t: Tables) {
    Named(t) && Sound(t) && WiredUp(t, t.links.Keys)
  }

  // No port is used by two links.
  ghost predicate NoSharedPorts(links: set<string>) {
    forall a, b :: a in links && b in links && a != b && IsCanonical(a) && IsCanonical(b) ==>
      && (SpecOf(a).from, SpecOf(a).output) != (SpecOf(b).from, SpecOf(b).output)
      && (SpecOf(a).to, SpecOf(a).input) != (SpecOf(b).to, SpecOf(b).input)
  }

  // Same instances with the same configurations.
  ghost predicate SameApps(t: Tables, u: Tables) {
    && t.apps.Keys == u.apps.Keys
    && (forall n :: n in t.apps ==> t.apps[n].app == u.apps[n].app && t.apps[n].conf == u.apps[n].conf)
  }

  // ---- Ports ----

  datatype Port = Out(app: string, name: string) | In(app: string, name: string)

  // A link put on its two ports, whatever was there.
  function PutOn(ports: map<Port, string>, l: string): map<Port, string>
    requires IsCanonical(l)
  {
    ports[Out(SpecOf(l).from, SpecOf(l).output) := l][In(SpecOf(l).to, SpecOf(l).input) := l]
  }

  // Linking in some order: a port keeps the last link put on it.
  function WireAll(order: seq<string>): map<Port, string>
    requires forall l :: l in order ==> IsCanonical(l)
  {
    if order == [] then map[] else PutOn(WireAll(order[..|order| - 1]), order[|order| - 1])
  }

  ghost predicate UsesPort(l: string, port: Port)
    requires IsCanonical(l)
  {
    port == Out(SpecOf(l).from, SpecOf(l).output) || port == In(SpecOf(l).to, SpecOf(l).input)
  }

  // An iteration over the set of links: each once.
  ghost predicate OrderOf(order: seq<string>, links: set<string>)
    ensures OrderOf(order, links) ==> forall l :: l in order ==> IsCanonical(l)
  {
    && (forall i, j :: 0 <= i < j < |order| ==> order[i] != order[j])
    && (forall l :: l in order <==> l in links)
    && (forall l :: l in links ==> IsCanonical(l))
  }

  lemma {:induction false} WireAllHolds(order: seq<string>, port: Port)
    requires forall l :: l in order ==> IsCanonical(l)
    ensures port in WireAll(order) <==> exists l :: l in order && UsesPort(l, port)
    ensures port in WireAll(order) ==> WireAll(order)[port] in order && UsesPort(WireAll(order)[port], port)
  {
    hide IsCanonical, SpecOf, ParseLink, FormatLink;
    if order != [] {
      var last := order[|order| - 1];
      var init := order[..|order| - 1];
      WireAllHolds(init, port);
      assert forall l :: l in order <==> l in init || l == last;
      if port in WireAll(order) {
        var l := WireAll(order)[port];
        assert l in order && UsesPort(l, port);
      }
      if l :| l in order && UsesPort(l, port) {
        assert l != last ==> l in init && UsesPort(l, port);
      }
    }
  }

  // The link behind a port.
  ghost predicate PortHolds(t: Tables, port: Port, l: string) {
    && l in t.links && port.app in t.apps
    && (match port
        case Out(n, p) => p in t.apps[n].output && t.apps[n].output[p] == t.links[l]
        case In(n, p) => p in t.apps[n].input && t.apps[n].input[p] == t.links[l])
  }

  // These links are behind these ports, and nothing is said about other ports.
  ghost predicate WiredTo(t: Tables, ports: map<Port, string>) {
    forall port :: port in ports ==> PortHolds(t, port, ports[port])
  }

  // These links are behind these ports, and no other link is behind any.
  ghost predicate PortsAre(t: Tables, ports: map<Port, string>) {
    forall port, l :: PortHolds(t, port, l) <==> port in ports && ports[port] == l
  }

  // A tidy network with these links on these ports has nothing else on any.
  lemma PortsDecided(t: Tables, order: seq<string>)
    requires Named(t) && Sound(t) && OrderOf(order, t.links.Keys) && WiredTo(t, WireAll(order))
    ensures PortsAre(t, WireAll(order))
  {
    hide IsCanonical, SpecOf, ParseLink, FormatLink, WireAll;
    forall port, l
      ensures PortHolds(t, port, l) <==> port in WireAll(order) && WireAll(order)[port] == l
    {
      WireAllHolds(order, port);
      if PortHolds(t, port, l) {
        BehindPort(t, port, l);
        assert l in order && UsesPort(l, port);
      }
    }
  }

  lemma BehindPort(t: Tables, port: Port, l: string)
    requires Named(t) && Sound(t) && PortHolds(t, port, l)
    ensures IsCanonical(l) && UsesPort(l, port)
  {
    hide IsCanonical, SpecOf, ParseLink, FormatLink;
    match port {
      case Out(n, p) => var k :| OutOf(t, k, n, p) && t.links[k] == t.apps[n].output[p];
      case In(n, p) => var k :| Into(t, k, n, p) && t.links[k] == t.apps[n].input[p];
    }
  }

  // Without shared ports every link is behind both of its own.
  lemma CompleteWhenFree(t: Tables, order: seq<string>, links: set<string>)
    requires Named(t) && OrderOf(order, links) && links <= t.links.Keys && NoSharedPorts(links)
    requires WiredTo(t, WireAll(order))
    ensures WiredUp(t, links)
  {
    hide IsCanonical, SpecOf, ParseLink, FormatLink, WireAll;
    forall l | l in links
      ensures WiredOut(t, l) && WiredIn(t, l)
    {
      OwnPort(order, links, l, Out(SpecOf(l).from, SpecOf(l).output));
      OwnPort(order, links, l, In(SpecOf(l).to, SpecOf(l).input));
    }
  }

  lemma OwnPort(order: seq<string>, links: set<string>, l: string, port: Port)
    requires OrderOf(order, links) && NoSharedPorts(links) && l in links && UsesPort(l, port)
    ensures port in WireAll(order) && WireAll(order)[port] == l
  {
    hide IsCanonical, SpecOf, ParseLink, FormatLink, WireAll;
    WireAllHolds(order, port);
    assert l in order;
  }

  // ---- unlink_apps ----

  function WithoutOut(t: Tables, l: string): Tables
    requires IsCanonical(l) && SpecOf(l).from in t.apps
  {
    var s := SpecOf(l);
    var st := t.apps[s.from];
    t.(apps := t.apps[s.from := st.(output := st.output - {s.output})])
  }

  function WithoutIn(t: Tables, l: string): Tables
    requires IsCanonical(l) && SpecOf(l).to in t.apps
  {
    var s := SpecOf(l);
    var st := t.apps[s.to];
    t.(apps := t.apps[s.to := st.(input := st.input - {s.input})])
  }

  function Unlinked(t: Tables, l: string): Tables
    requires IsCanonical(l) && SpecOf(l).from in t.apps && SpecOf(l).to in t.apps
  {
    WithoutIn(WithoutOut(t.(links := t.links - {l}), l), l)
  }

  // Some table entry still refers to the link.
  ghost predicate Referenced(t: Tables, link: Link) {
    || (exists l :: l in t.links && t.links[l] == link)
    || (exists n, p :: n in t.apps && p in t.apps[n].output && t.apps[n].output[p] == link)
    || (exists n, p :: n in t.apps && p in t.apps[n].input && t.apps[n].input[p] == link)
  }

  lemma WiredDisjoint(t: Tables, a: string, b: string)
    requires Wired(t) && a in t.links && b in t.links && a != b
    ensures (SpecOf(a).from, SpecOf(a).output) != (SpecOf(b).from, SpecOf(b).output)
    ensures (SpecOf(a).to, SpecOf(a).input) != (SpecOf(b).to, SpecOf(b).input)
  {
    hide IsCanonical, SpecOf, ParseLink, FormatLink;
    assert WiredOut(t, a) && WiredOut(t, b) && WiredIn(t, a) && WiredIn(t, b);
  }

  lemma WiredNoShared(t: Tables)
    requires Wired(t)
    ensures NoSharedPorts(t.links.Keys)
  {
    hide IsCanonical, SpecOf, ParseLink, FormatLink, Wired;
    forall a, b | a in t.links && b in t.links && a != b && IsCanonical(a) && IsCanonical(b)
      ensures (SpecOf(a).from, SpecOf(a).output) != (SpecOf(b).from, SpecOf(b).output)
      ensures (SpecOf(a).to, SpecOf(a).input) != (SpecOf(b).to, SpecOf(b).input)
    {
      WiredDisjoint(t, a, b);
    }
  }

  // Unlinking takes the entries of the link's two ports away, app by app.
  lemma UnlinkedAt(t: Tables, l: string, n: string)
    requires IsCanonical(l) && SpecOf(l).from in t.apps && SpecOf(l).to in t.apps && n in t.apps
    ensures var u, s := Unlinked(t, l), SpecOf(l);
            && n in u.apps && u.apps[n].app == t.apps[n].app && u.apps[n].conf == t.apps[n].conf
            && u.apps[n].output == (if n == s.from then t.apps[n].output - {s.output} else t.apps[n].output)
            && u.apps[n].input == (if n == s.to then t.apps[n].input - {s.input} else t.apps[n].input)
  {
    hide IsCanonical, SpecOf, ParseLink, FormatLink;
  }

  lemma UnlinkedApps(t: Tables, l: string)
    requires IsCanonical(l) && SpecOf(l).from in t.apps && SpecOf(l).to in t.apps
    ensures Unlinked(t, l).links == t.links - {l} && SameApps(t, Unlinked(t, l))
  {
    hide IsCanonical, SpecOf, ParseLink, FormatLink, Unlinked;
    UnlinkedKeys(t, l);
    forall n | n in t.apps
      ensures t.apps[n].app == Unlinked(t, l).apps[n].app && t.apps[n].conf == Unlinked(t, l).apps[n].conf
    {
      UnlinkedAt(t, l, n);
    }
  }

  lemma UnlinkedKeys(t: Tables, l: string)
    requires IsCanonical(l) && SpecOf(l).from in t.apps && SpecOf(l).to in t.apps
    ensures Unlinked(t, l).links == t.links - {l} && Unlinked(t, l).apps.Keys == t.apps.Keys
  {
    hide IsCanonical, SpecOf, ParseLink, FormatLink;
  }

  // Unlinking finds both ends, removes the last references to the link and leaves
  // the rest as it was.
  lemma UnlinkKeeps(t: Tables, l: string)
    requires Tidy(t) && l in t.links
    ensures IsCanonical(l) && SpecOf(l).from in t.apps && SpecOf(l).to in t.apps
    ensures Tidy(Unlinked(t, l)) && SameApps(t, Unlinked(t, l))
    ensures !Referenced(Unlinked(t, l), t.links[l])
    ensures Wired(t) ==> Wired(Unlinked(t, l))
  {
    hide IsCanonical, SpecOf, ParseLink, FormatLink, Unlinked, Sound, Named, Anchored, Referenced, WiredUp;
    TidyEnds(t, l);
    UnlinkedApps(t, l);
    UnlinkNamed(t, l);
    UnlinkSound(t, l);
    NotReferenced(Unlinked(t, l), t.links[l]);
    if Wired(t) {
      WiredNoShared(t);
      UnlinkComplete(t, l);
    }
  }

  lemma TidyEnds(t: Tables, l: string)
    requires Tidy(t) && l in t.links
    ensures IsCanonical(l) && SpecOf(l).from in t.apps && SpecOf(l).to in t.apps
  {
    hide IsCanonical, SpecOf, ParseLink, FormatLink, Sound;
  }

  lemma UnlinkNamed(t: Tables, l: string)
    requires Named(t) && IsCanonical(l) && SpecOf(l).from in t.apps && SpecOf(l).to in t.apps && l in t.links
    ensures Named(Unlinked(t, l)) && (Anchored(t) ==> Anchored(Unlinked(t, l)))
    ensures forall k :: k in Unlinked(t, l).links ==> Unlinked(t, l).links[k] != t.links[l]
  {
    hide IsCanonical, SpecOf, ParseLink, FormatLink, Unlinked;
    UnlinkedApps(t, l);
  }

  lemma NotReferenced(u: Tables, link: Link)
    requires Sound(u) && forall k :: k in u.links ==> u.links[k] != link
    ensures !Referenced(u, link)
  {
    hide IsCanonical, SpecOf, ParseLink, FormatLink;
    forall n, p | n in u.apps && p in u.apps[n].output
      ensures u.apps[n].output[p] != link
    {
      var k :| OutOf(u, k, n, p) && u.links[k] == u.apps[n].output[p];
    }
    forall n, p | n in u.apps && p in u.apps[n].input
      ensures u.apps[n].input[p] != link
    {
      var k :| Into(u, k, n, p) && u.links[k] == u.apps[n].input[p];
    }
  }

  lemma UnlinkedOut(t: Tables, l: string, n: string, p: string)
    requires Sound(t) && IsCanonical(l) && SpecOf(l).from in t.apps && SpecOf(l).to in t.apps
    requires n in t.apps && p in Unlinked(t, l).apps[n].output
    ensures exists k :: OutOf(Unlinked(t, l), k, n, p) && Unlinked(t, l).links[k] == Unlinked(t, l).apps[n].output[p]
  {
    hide IsCanonical, SpecOf, ParseLink, FormatLink, Unlinked;
    UnlinkedApps(t, l);
    UnlinkedAt(t, l, n);
    var k :| OutOf(t, k, n, p) && t.links[k] == t.apps[n].output[p];
    assert OutOf(Unlinked(t, l), k, n, p);
  }

  lemma UnlinkedIn(t: Tables, l: string, n: string, p: string)
    requires Sound(t) && IsCanonical(l) && SpecOf(l).from in t.apps && SpecOf(l).to in t.apps
    requires n in t.apps && p in Unlinked(t, l).apps[n].input
    ensures exists k :: Into(Unlinked(t, l), k, n, p) && Unlinked(t, l).links[k] == Unlinked(t, l).apps[n].input[p]
  {
    hide IsCanonical, SpecOf, ParseLink, FormatLink, Unlinked;
    UnlinkedApps(t, l);
    UnlinkedAt(t, l, n);
    var k :| Into(t, k, n, p) && t.links[k] == t.apps[n].input[p];
    assert Into(Unlinked(t, l), k, n, p);
  }

  lemma UnlinkSound(t: Tables, l: string)
    requires Sound(t) && IsCanonical(l) && SpecOf(l).from in t.apps && SpecOf(l).to in t.apps
    ensures Sound(Unlinked(t, l))
  {
    hide IsCanonical, SpecOf, ParseLink, FormatLink, Unlinked, OutOf, Into;
    var u := Unlinked(t, l);
    UnlinkedApps(t, l);
    forall n, p | n in u.apps && p in u.apps[n].output
      ensures exists k :: OutOf(u, k, n, p) && u.links[k] == u.apps[n].output[p]
    {
      UnlinkedOut(t, l, n, p);
    }
    forall n, p | n in u.apps && p in u.apps[n].input
      ensures exists k :: Into(u, k, n, p) && u.links[k] == u.apps[n].input[p]
    {
      UnlinkedIn(t, l, n, p);
    }
  }

  lemma UnlinkedOther(t: Tables, l: string, k: string)
    requires NoSharedPorts(t.links.Keys) && k in t.links && l in t.links && k != l && WiredOut(t, k) && WiredIn(t, k)
    requires IsCanonical(l) && SpecOf(l).from in t.apps && SpecOf(l).to in t.apps
    ensures WiredOut(Unlinked(t, l), k) && WiredIn(Unlinked(t, l), k)
  {
    hide IsCanonical, SpecOf, ParseLink, FormatLink, Unlinked;
    UnlinkedApps(t, l);
    UnlinkedAt(t, l, SpecOf(k).from);
    UnlinkedAt(t, l, SpecOf(k).to);
  }

  lemma UnlinkComplete(t: Tables, l: string)
    requires WiredUp(t, t.links.Keys) && NoSharedPorts(t.links.Keys)
    requires l in t.links && IsCanonical(l) && SpecOf(l).from in t.apps && SpecOf(l).to in t.apps
    ensures WiredUp(Unlinked(t, l), t.links.Keys - {l})
  {
    hide IsCanonical, SpecOf, ParseLink, FormatLink, Unlinked, WiredOut, WiredIn, NoSharedPorts;
    forall k | k in t.links && k != l
      ensures WiredOut(Unlinked(t, l), k) && WiredIn(Unlinked(t, l), k)
    {
      assert WiredOut(t, k) && WiredIn(t, k);
      UnlinkedOther(t, l, k);
    }
  }

  // ---- stop_app and start_app ----

  function Stopped(t: Tables, n: string): Tables { t.(apps := t.apps - {n}) }

  function Started(t: Tables, n: string, app: App, conf: AppArg): Tables {
    t.(apps := t.apps[n := AppState(app, conf, map[], map[])])
  }

  lemma StopSound(t: Tables, n: string)
    requires Sound(t)
    ensures Sound(Stopped(t, n))
  {
    hide IsCanonical, SpecOf, ParseLink, FormatLink;
    var u := Stopped(t, n);
    forall m, p | m in u.apps && p in u.apps[m].output
      ensures exists k :: OutOf(u, k, m, p) && u.links[k] == u.apps[m].output[p]
    {
      var k :| OutOf(t, k, m, p) && t.links[k] == t.apps[m].output[p];
      assert OutOf(u, k, m, p);
    }
    forall m, p | m in u.apps && p in u.apps[m].input
      ensures exists k :: Into(u, k, m, p) && u.links[k] == u.apps[m].input[p]
    {
      var k :| Into(t, k, m, p) && t.links[k] == t.apps[m].input[p];
      assert Into(u, k, m, p);
    }
  }

  lemma StartSound(t: Tables, n: string, app: App, conf: AppArg)
    requires Sound(t) && n !in t.apps
    ensures Sound(Started(t, n, app, conf))
  {
    hide IsCanonical, SpecOf, ParseLink, FormatLink;
    var u := Started(t, n, app, conf);
    forall m, p | m in u.apps && p in u.apps[m].output
      ensures exists k :: OutOf(u, k, m, p) && u.links[k] == u.apps[m].output[p]
    {
      var k :| OutOf(t, k, m, p) && t.links[k] == t.apps[m].output[p];
      assert OutOf(u, k, m, p);
    }
    forall m, p | m in u.apps && p in u.apps[m].input
      ensures exists k :: Into(u, k, m, p) && u.links[k] == u.apps[m].input[p]
    {
      var k :| Into(t, k, m, p) && t.links[k] == t.apps[m].input[p];
      assert Into(u, k, m, p);
    }
  }

  // ---- link_apps ----

  // `link` is the table's own link of that name, or the one made for it.
  function WithLink(t: Tables, l: string, link: Link): Tables
    requires IsCanonical(l) && SpecOf(l).from in t.apps && SpecOf(l).to in t.apps
  {
    WithIn(WithOut(t.(links := t.links[l := link]), l, link), l, link)
  }

  function WithOut(t: Tables, l: string, link: Link): Tables
    requires IsCanonical(l) && SpecOf(l).from in t.apps
  {
    var s := SpecOf(l);
    var st := t.apps[s.from];
    t.(apps := t.apps[s.from := st.(output := st.output[s.output := link])])
  }

  function WithIn(t: Tables, l: string, link: Link): Tables
    requires IsCanonical(l) && SpecOf(l).to in t.apps
  {
    var s := SpecOf(l);
    var st := t.apps[s.to];
    t.(apps := t.apps[s.to := st.(input := st.input[s.input := link])])
  }

  // The link is new to the table, or is the table's own.
  ghost predicate Fits(t: Tables, l: string, link: Link) {
    if l in t.links then t.links[l] == link else forall k :: k in t.links ==> t.links[k] != link
  }

  lemma LinkedAt(t: Tables, l: string, link: Link, n: string)
    requires IsCanonical(l) && SpecOf(l).from in t.apps && SpecOf(l).to in t.apps && n in t.apps
    ensures var u, s := WithLink(t, l, link), SpecOf(l);
            && n in u.apps && u.apps[n].app == t.apps[n].app && u.apps[n].conf == t.apps[n].conf
            && u.apps[n].output == (if n == s.from then t.apps[n].output[s.output := link] else t.apps[n].output)
            && u.apps[n].input == (if n == s.to then t.apps[n].input[s.input := link] else t.apps[n].input)
  {
    hide IsCanonical, SpecOf, ParseLink, FormatLink;
  }

  lemma LinkedApps(t: Tables, l: string, link: Link)
    requires IsCanonical(l) && SpecOf(l).from in t.apps && SpecOf(l).to in t.apps
    ensures WithLink(t, l, link).links == t.links[l := link] && SameApps(t, WithLink(t, l, link))
  {
    hide IsCanonical, SpecOf, ParseLink, FormatLink, WithLink;
    LinkedKeys(t, l, link);
    forall n | n in t.apps
      ensures t.apps[n].app == WithLink(t, l, link).apps[n].app && t.apps[n].conf == WithLink(t, l, link).apps[n].conf
    {
      LinkedAt(t, l, link, n);
    }
  }

  lemma LinkedKeys(t: Tables, l: string, link: Link)
    requires IsCanonical(l) && SpecOf(l).from in t.apps && SpecOf(l).to in t.apps
    ensures WithLink(t, l, link).links == t.links[l := link] && WithLink(t, l, link).apps.Keys == t.apps.Keys
  {
    hide IsCanonical, SpecOf, ParseLink, FormatLink;
  }

  // Linking puts the link on its two ports and leaves all others.
  lemma LinkKeeps(t: Tables, l: string, link: Link, ports: map<Port, string>)
    requires Named(t) && Sound(t) && WiredTo(t, ports) && Fits(t, l, link)
    requires IsCanonical(l) && SpecOf(l).from in t.apps && SpecOf(l).to in t.apps
    ensures var u := WithLink(t, l, link);
            Named(u) && Sound(u) && WiredTo(u, PutOn(ports, l)) && SameApps(t, u)
  {
    hide IsCanonical, SpecOf, ParseLink, FormatLink, WithLink, Sound, WiredTo;
    LinkedApps(t, l, link);
    LinkSound(t, l, link);
    LinkWires(t, l, link, ports);
  }

  lemma LinkedOut(t: Tables, l: string, link: Link, n: string, p: string)
    requires Sound(t) && Fits(t, l, link) && IsCanonical(l) && SpecOf(l).from in t.apps && SpecOf(l).to in t.apps
    requires n in t.apps && p in WithLink(t, l, link).apps[n].output
    ensures var u := WithLink(t, l, link); exists k :: OutOf(u, k, n, p) && u.links[k] == u.apps[n].output[p]
  {
    hide IsCanonical, SpecOf, ParseLink, FormatLink, WithLink;
    var u := WithLink(t, l, link);
    LinkedApps(t, l, link);
    LinkedAt(t, l, link, n);
    if n == SpecOf(l).from && p == SpecOf(l).output {
      assert OutOf(u, l, n, p);
    } else {
      var k :| OutOf(t, k, n, p) && t.links[k] == t.apps[n].output[p];
      assert OutOf(u, k, n, p);
    }
  }

  lemma LinkedIn(t: Tables, l: string, link: Link, n: string, p: string)
    requires Sound(t) && Fits(t, l, link) && IsCanonical(l) && SpecOf(l).from in t.apps && SpecOf(l).to in t.apps
    requires n in t.apps && p in WithLink(t, l, link).apps[n].input
    ensures var u := WithLink(t, l, link); exists k :: Into(u, k, n, p) && u.links[k] == u.apps[n].input[p]
  {
    hide IsCanonical, SpecOf, ParseLink, FormatLink, WithLink;
    var u := WithLink(t, l, link);
    LinkedApps(t, l, link);
    LinkedAt(t, l, link, n);
    if n == SpecOf(l).to && p == SpecOf(l).input {
      assert Into(u, l, n, p);
    } else {
      var k :| Into(t, k, n, p) && t.links[k] == t.apps[n].input[p];
      assert Into(u, k, n, p);
    }
  }

  lemma LinkSound(t: Tables, l: string, link: Link)
    requires Sound(t) && Fits(t, l, link)
    requires IsCanonical(l) && SpecOf(l).from in t.apps && SpecOf(l).to in t.apps
    ensures Sound(WithLink(t, l, link))
  {
    hide IsCanonical, SpecOf, ParseLink, FormatLink, WithLink, OutOf, Into, Fits;
    var u := WithLink(t, l, link);
    LinkedApps(t, l, link);
    forall n, p | n in u.apps && p in u.apps[n].output
      ensures exists k :: OutOf(u, k, n, p) && u.links[k] == u.apps[n].output[p]
    {
      LinkedOut(t, l, link, n, p);
    }
    forall n, p | n in u.apps && p in u.apps[n].input
      ensures exists k :: Into(u, k, n, p) && u.links[k] == u.apps[n].input[p]
    {
      LinkedIn(t, l, link, n, p);
    }
  }

  lemma LinkWires(t: Tables, l: string, link: Link, ports: map<Port, string>)
    requires WiredTo(t, ports) && Fits(t, l, link)
    requires IsCanonical(l) && SpecOf(l).from in t.apps && SpecOf(l).to in t.apps
    ensures WiredTo(WithLink(t, l, link), PutOn(ports, l))
  {
    hide IsCanonical, SpecOf, ParseLink, FormatLink, WithLink, PortHolds;
    var u, all := WithLink(t, l, link), PutOn(ports, l);
    forall port | port in all
      ensures PortHolds(u, port, all[port])
    {
      PortLinked(t, l, link, port, if UsesPort(l, port) then l else ports[port]);
    }
  }

  lemma PortLinked(t: Tables, l: string, link: Link, port: Port, k: string)
    requires Fits(t, l, link) && IsCanonical(l) && SpecOf(l).from in t.apps && SpecOf(l).to in t.apps
    requires if UsesPort(l, port) then k == l else PortHolds(t, port, k)
    ensures PortHolds(WithLink(t, l, link), port, k)
  {
    hide IsCanonical, SpecOf, ParseLink, FormatLink, WithLink;
    LinkedApps(t, l, link);
    LinkedAt(t, l, link, port.app);
  }

  // Linking what is linked already changes nothing.
  lemma LinkAgain(t: Tables, l: string)
    requires l in t.links && WiredOut(t, l) && WiredIn(t, l)
    ensures WithLink(t, l, t.links[l]) == t
  {
    hide IsCanonical, SpecOf, ParseLink, FormatLink;
    var s := SpecOf(l);
    var out := t.apps[s.from].output[s.output := t.links[l]];
    assert out == t.apps[s.from].output;
    var u := WithOut(t.(links := t.links[l := t.links[l]]), l, t.links[l]);
    assert u.links == t.links && u.apps == t.apps;
    assert t.apps[s.to].input[s.input := t.links[l]] == t.apps[s.to].input;
  }

  // ---- What a configuration decides ----

  // The tables are those of the configuration: its names, its identities, its
  // links, and ports wired accordingly.
  ghost predicate Matches(t: Tables, apps: map<string, AppArg>, links: set<string>) {
    && t.apps.Keys == apps.Keys && t.links.Keys == links && Wired(t)
    && (forall n :: n in t.apps ==> t.apps[n].conf.identity == apps[n].identity)
  }

  // The same, where the links were put on their ports in this order: with shared
  // ports the last one wins.
  ghost predicate Built(t: Tables, apps: map<string, AppArg>, links: set<string>, order: seq<string>) {
    && t.apps.Keys == apps.Keys && t.links.Keys == links && Tidy(t)
    && (forall n :: n in t.apps ==> t.apps[n].conf.identity == apps[n].identity)
    && OrderOf(order, links) && PortsAre(t, WireAll(order))
  }

  lemma BuiltMatches(t: Tables, apps: map<string, AppArg>, links: set<string>, order: seq<string>)
    requires Built(t, apps, links, order) && NoSharedPorts(links)
    ensures Matches(t, apps, links)
  {
    hide IsCanonical, SpecOf, ParseLink, FormatLink, WireAll, Sound;
    forall port | port in WireAll(order)
      ensures PortHolds(t, port, WireAll(order)[port])
    {
    }
    CompleteWhenFree(t, order, links);
  }

  // A network that matches a configuration is one that the engine can go on from.
  lemma MatchesTidy(t: Tables, apps: map<string, AppArg>, links: set<string>)
    requires Matches(t, apps, links)
    ensures Tidy(t)
  {
    hide IsCanonical, SpecOf, ParseLink, FormatLink, Sound;
    forall l | l in t.links
      ensures SpecOf(l).from in t.apps && SpecOf(l).to in t.apps
    {
      assert WiredOut(t, l) && WiredIn(t, l);
    }
  }

  // Which link is behind which port follows from the links of the configuration.
  lemma PortsFollow(t: Tables, port: Port, l: string)
    requires Wired(t)
    ensures PortHolds(t, port, l) <==> l in t.links && IsCanonical(l) && UsesPort(l, port)
  {
    hide IsCanonical, SpecOf, ParseLink, FormatLink, Sound;
    if l in t.links {
      assert WiredOut(t, l) && WiredIn(t, l);
    }
    if PortHolds(t, port, l) {
      BehindPort(t, port, l);
    }
  }

  // Two networks that match one configuration have the same apps by name and
  // identity, the same links by name, and the same link behind every port.
  lemma ConfigurationDecides(t: Tables, u: Tables, apps: map<string, AppArg>, links: set<string>)
    requires Matches(t, apps, links) && Matches(u, apps, links)
    ensures t.apps.Keys == u.apps.Keys && t.links.Keys == u.links.Keys
    ensures forall n :: n in t.apps ==> t.apps[n].conf.identity == u.apps[n].conf.identity
    ensures forall port, l :: PortHolds(t, port, l) <==> PortHolds(u, port, l)
  {
    hide IsCanonical, SpecOf, ParseLink, FormatLink, UsesPort, PortHolds, Wired;
    forall port, l
      ensures PortHolds(t, port, l) <==> PortHolds(u, port, l)
    {
      PortsFollow(t, port, l);
      PortsFollow(u, port, l);
    }
  }

  // ---- When a configuration decides its wiring at all ----

  ghost predicate OrderFree(links: set<string>) {
    forall a, b :: OrderOf(a, links) && OrderOf(b, links) ==> WireAll(a) == WireAll(b)
  }

  lemma SharedDiffers(links: set<string>, a: string, b: string, port: Port)
    requires forall l :: l in links ==> IsCanonical(l)
    requires a in links && b in links && a != b && UsesPort(a, port) && UsesPort(b, port)
    ensures !OrderFree(links)
  {
    hide IsCanonical, SpecOf, ParseLink, FormatLink;
    var xs := Enumerated(links - {a});
    var ys := Enumerated(links - {b});
    var x, y := xs + [a], ys + [b];
    assert OrderOf(x, links) && OrderOf(y, links);
    assert x[..|x| - 1] == xs && y[..|y| - 1] == ys;
    assert WireAll(x)[port] == a && WireAll(y)[port] == b;
  }

  lemma OrdersAgree(links: set<string>, a: seq<string>, b: seq<string>)
    requires NoSharedPorts(links) && OrderOf(a, links) && OrderOf(b, links)
    ensures WireAll(a) == WireAll(b)
  {
    hide IsCanonical, SpecOf, ParseLink, FormatLink, WireAll;
    forall port
      ensures port in WireAll(a) <==> port in WireAll(b)
      ensures port in WireAll(a) ==> WireAll(a)[port] == WireAll(b)[port]
    {
      WireAllHolds(a, port);
      WireAllHolds(b, port);
    }
  }

  // All orders of linking agree exactly when no port is used by two links.
  lemma OrderFreeExactly(links: set<string>)
    requires forall l :: l in links ==> IsCanonical(l)
    ensures OrderFree(links) <==> NoSharedPorts(links)
  {
    hide IsCanonical, SpecOf, ParseLink, FormatLink, WireAll, OrderOf;
    if NoSharedPorts(links) {
      forall a, b | OrderOf(a, links) && OrderOf(b, links)
        ensures WireAll(a) == WireAll(b)
      {
        OrdersAgree(links, a, b);
      }
    } else {
      var a, b :| a in links && b in links && a != b &&
        ((SpecOf(a).from, SpecOf(a).output) == (SpecOf(b).from, SpecOf(b).output) ||
         (SpecOf(a).to, SpecOf(a).input) == (SpecOf(b).to, SpecOf(b).input));
      if (SpecOf(a).from, SpecOf(a).output) == (SpecOf(b).from, SpecOf(b).output) {
        SharedDiffers(links, a, b, Out(SpecOf(a).from, SpecOf(a).output));
      } else {
        SharedDiffers(links, a, b, In(SpecOf(a).to, SpecOf(a).input));
      }
    }
  }
}
