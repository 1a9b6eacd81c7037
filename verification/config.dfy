// Configurations of src/config.rs, and the link syntax that names the links.
module Config {
  datatype LinkSpec = LinkSpec(from: string, output: string, to: string, input: string)

  datatype Parsed = NoMatch | Match(spec: LinkSpec)

  predicate IsWord(c: char) {
    'a' <= c <= 'z' || 'A' <= c <= 'Z' || '0' <= c <= '9' || c == '_'
  }

  // ---- The link expression ----

  // Where a greedy run of word characters, or of spaces, ends.
  function WordEnd(s: string, i: nat): (r: nat)
    requires i <= |s|
    ensures i <= r <= |s|
    ensures forall k :: i <= k < r ==> IsWord(s[k])
    decreases |s| - i
  {
    if i < |s| && IsWord(s[i]) then WordEnd(s, i + 1) else i
  }

  function SpaceEnd(s: string, i: nat): (r: nat)
    requires i <= |s|
    ensures i <= r <= |s|
    decreases |s| - i
  {
    if i < |s| && s[i] == ' ' then SpaceEnd(s, i + 1) else i
  }

  datatype Pair = NoPair | Pair(first: string, second: string, end: nat)

  // A dotted pair of words at i.
  function PairAt(s: string, i: nat): (r: Pair)
    requires i <= |s|
    ensures r.Pair? ==> IsName(r.first) && IsName(r.second) && i < r.end <= |s|
  {
    var dot := WordEnd(s, i);
    if dot == i || dot == |s| || s[dot] != '.' then NoPair
    else
      var end := WordEnd(s, dot + 1);
      if end == dot + 1 then NoPair else Pair(s[i..dot], s[dot + 1..end], end)
  }

  // One try of the expression at one place. No part of it can match in a second
  // way, so nothing is ever tried again.
  function MatchAt(s: string, i: nat): (r: Parsed)
    requires i <= |s|
    ensures r.Match? ==> WellNamed(r.spec)
  {
    var left := PairAt(s, SpaceEnd(s, i));
    if left.NoPair? then NoMatch
    else
      var arrow := SpaceEnd(s, left.end);
      if !(arrow + 1 < |s| && s[arrow] == '-' && s[arrow + 1] == '>') then NoMatch
      else
        var right := PairAt(s, SpaceEnd(s, arrow + 2));
        if right.NoPair? then NoMatch
        else Match(LinkSpec(left.first, left.second, right.first, right.second))
  }

  // The expression is not anchored: the leftmost match counts.
  function Search(s: string, i: nat): (r: Parsed)
    requires i <= |s|
    ensures r.Match? ==> WellNamed(r.spec)
    decreases |s| - i
  {
    var m := MatchAt(s, i);
    if m.Match? || i == |s| then m else Search(s, i + 1)
  }

  // NoMatch is the panic "link parse error".
  function ParseLink(s: string): (r: Parsed)
    ensures r.Match? ==> WellNamed(r.spec)
  {
    Search(s, 0)
  }

  function FormatLink(spec: LinkSpec): string {
    spec.from + "." + spec.output + " -> " + spec.to + "." + spec.input
  }

  predicate IsName(s: string) {
    s != [] && forall k :: 0 <= k < |s| ==> IsWord(s[k])
  }

  predicate WellNamed(spec: LinkSpec) {
    IsName(spec.from) && IsName(spec.output) && IsName(spec.to) && IsName(spec.input)
  }

  lemma {:induction false} WordEndIs(s: string, i: nat, j: nat)
    requires i <= j <= |s| && (forall k :: i <= k < j ==> IsWord(s[k]))
    requires j == |s| || !IsWord(s[j])
    ensures WordEnd(s, i) == j
    decreases j - i
  {
    if i < j {
      WordEndIs(s, i + 1, j);
    }
  }

  lemma PairIs(s: string, i: nat, first: string, second: string)
    requires IsName(first) && IsName(second) && i + |first| + 1 + |second| <= |s|
    requires s[i..i + |first| + 1 + |second|] == first + "." + second
    requires i + |first| + 1 + |second| == |s| || !IsWord(s[i + |first| + 1 + |second|])
    ensures PairAt(s, i) == Pair(first, second, i + |first| + 1 + |second|)
  {
    hide WordEnd, IsName;
    var dot, end := i + |first|, i + |first| + 1 + |second|;
    PairParts(s, i, first, second);
    WordIs(s, i, first);
    WordIs(s, dot + 1, second);
  }

  lemma PairParts(s: string, i: nat, first: string, second: string)
    requires i + |first| + 1 + |second| <= |s|
    requires s[i..i + |first| + 1 + |second|] == first + "." + second
    ensures s[i..i + |first|] == first && s[i + |first|] == '.'
    ensures s[i + |first| + 1..i + |first| + 1 + |second|] == second
  {
    var pair, end := first + "." + second, i + |first| + 1 + |second|;
    assert pair[..|first|] == first && pair[|first| + 1..] == second;
    assert s[i..end][..|first|] == s[i..i + |first|] && s[i..end][|first| + 1..] == s[i + |first| + 1..end];
    assert s[i..end][|first|] == s[i + |first|];
  }

  // A name in its place, and no word character behind it.
  lemma WordIs(s: string, i: nat, name: string)
    requires IsName(name) && i + |name| <= |s| && s[i..i + |name|] == name
    requires i + |name| == |s| || !IsWord(s[i + |name|])
    ensures WordEnd(s, i) == i + |name| && |name| > 0
  {
    hide IsWord, WordEnd;
    forall k | i <= k < i + |name|
      ensures IsWord(s[k])
    {
      assert s[k] == s[i..i + |name|][k - i] == name[k - i];
    }
    WordEndIs(s, i, i + |name|);
  }

  lemma Layout(left: string, right: string)
    ensures var s := left + " -> " + right;
            && s[0..|left|] == left && s[|left| + 4..|left| + 4 + |right|] == right
            && s[|left|] == ' ' && s[|left| + 1] == '-' && s[|left| + 2] == '>' && s[|left| + 3] == ' '
  {
  }

  lemma FormatShape(spec: LinkSpec)
    ensures FormatLink(spec) == (spec.from + "." + spec.output) + " -> " + (spec.to + "." + spec.input)
  {
  }

  lemma NoSpace(s: string, i: nat, name: string)
    requires IsName(name) && i < |s| && s[i] == name[0]
    ensures SpaceEnd(s, i) == i
  {
  }

  // Formatting and parsing again gives the same four names.
  lemma ParseFormat(spec: LinkSpec)
    requires WellNamed(spec)
    ensures ParseLink(FormatLink(spec)) == Match(spec)
  {
    hide MatchAt, FormatLink;
    FormatMatches(spec);
  }

  lemma MatchParts(s: string, i: nat, left: Pair, right: Pair)
    requires i <= |s| && left.Pair? && right.Pair? && PairAt(s, SpaceEnd(s, i)) == left && left.end <= |s|
    requires var arrow := SpaceEnd(s, left.end);
             && arrow + 1 < |s| && s[arrow] == '-' && s[arrow + 1] == '>'
             && PairAt(s, SpaceEnd(s, arrow + 2)) == right
    ensures MatchAt(s, i) == Match(LinkSpec(left.first, left.second, right.first, right.second))
  {
    hide PairAt, SpaceEnd;
  }

  lemma FormatMatches(spec: LinkSpec)
    requires WellNamed(spec)
    ensures MatchAt(FormatLink(spec), 0) == Match(spec)
  {
    hide MatchAt, IsWord, IsName, WordEnd, SpaceEnd, PairAt, FormatLink;
    var left, right := spec.from + "." + spec.output, spec.to + "." + spec.input;
    FormatShape(spec);
    Layout(left, right);
    var s, b := FormatLink(spec), |left|;
    PairInPlace(s, 0, spec.from, spec.output);
    PairInPlace(s, b + 4, spec.to, spec.input);
    NoSpaceAt(s, b + 1);
    OneSpace(s, b);
    OneSpace(s, b + 3);
    MatchParts(s, 0, Pair(spec.from, spec.output, b), Pair(spec.to, spec.input, |s|));
  }

  lemma OneSpace(s: string, i: nat)
    requires i + 1 < |s| && s[i] == ' ' && SpaceEnd(s, i + 1) == i + 1
    ensures SpaceEnd(s, i) == i + 1
  {
  }

  lemma NoSpaceAt(s: string, i: nat)
    requires i < |s| && s[i] != ' '
    ensures SpaceEnd(s, i) == i
  {
  }

  // A pair in its place: no space in front of it, and a space or nothing after.
  lemma PairInPlace(s: string, i: nat, first: string, second: string)
    requires IsName(first) && IsName(second) && i + |first| + 1 + |second| <= |s|
    requires s[i..i + |first| + 1 + |second|] == first + "." + second
    requires i + |first| + 1 + |second| == |s| || s[i + |first| + 1 + |second|] == ' '
    ensures SpaceEnd(s, i) == i
    ensures PairAt(s, i) == Pair(first, second, i + |first| + 1 + |second|)
  {
    var pair := first + "." + second;
    assert s[i] == s[i..i + |pair|][0] == pair[0] == first[0];
    NoSpace(s, i, first);
    PairIs(s, i, first, second);
  }

  // ---- What the expression stands for ----

  // The characters of a name by their codes.
  lemma WordCharacters(c: char)
    ensures IsWord(c) <==> var n := c as int; 48 <= n <= 57 || 65 <= n <= 90 || n == 95 || 97 <= n <= 122
  {
  }

  // Where the parts of a link are in a text: each name with the end of it, and
  // the arrow.
  datatype Places = Places(from: nat, dot: nat, output: nat, arrow: nat, to: nat, dot': nat, input: nat)

  ghost predicate Spaces(s: string, i: nat, j: nat) {
    i <= j <= |s| && forall k :: i <= k < j ==> s[k] == ' '
  }

  ghost predicate NameIn(s: string, i: nat, j: nat) {
    i < j <= |s| && forall k :: i <= k < j ==> IsWord(s[k])
  }

  // From `i` on: spaces, two names around a dot, spaces, the arrow, spaces, and two
  // names around a dot, of which the last one goes as far as it can.
  ghost predicate Reads(s: string, i: nat, p: Places) {
    && Spaces(s, i, p.from) && NameIn(s, p.from, p.dot)
    && p.dot < |s| && s[p.dot] == '.' && NameIn(s, p.dot + 1, p.output)
    && Spaces(s, p.output, p.arrow) && p.arrow + 1 < |s| && s[p.arrow] == '-' && s[p.arrow + 1] == '>'
    && Spaces(s, p.arrow + 2, p.to) && NameIn(s, p.to, p.dot')
    && p.dot' < |s| && s[p.dot'] == '.' && NameIn(s, p.dot' + 1, p.input)
    && (p.input == |s| || !IsWord(s[p.input]))
  }

  // The four names in these places.
  ghost function NamesAt(s: string, p: Places): LinkSpec
    requires p.from <= p.dot < p.output <= |s| && p.to <= p.dot' < p.input <= |s|
  {
    LinkSpec(s[p.from..p.dot], s[p.dot + 1..p.output], s[p.to..p.dot'], s[p.dot' + 1..p.input])
  }

  ghost predicate Says(s: string, i: nat, spec: LinkSpec) {
    exists p :: Reads(s, i, p) && NamesAt(s, p) == spec
  }

  lemma {:induction false} SpaceEndIs(s: string, i: nat, j: nat)
    requires Spaces(s, i, j) && j < |s| && s[j] != ' '
    ensures SpaceEnd(s, i) == j
    decreases j - i
  {
    if i < j {
      SpaceEndIs(s, i + 1, j);
    }
  }

  lemma {:induction false} SpacesSkipped(s: string, i: nat)
    requires i <= |s|
    ensures Spaces(s, i, SpaceEnd(s, i))
    decreases |s| - i
  {
    if i < |s| && s[i] == ' ' {
      SpacesSkipped(s, i + 1);
    }
  }

  lemma {:induction false} WordStops(s: string, i: nat)
    requires i <= |s|
    ensures WordEnd(s, i) == |s| || !IsWord(s[WordEnd(s, i)])
    decreases |s| - i
  {
    if i < |s| && IsWord(s[i]) {
      WordStops(s, i + 1);
    }
  }

  // Two names around a dot, of which the second goes as far as it can.
  lemma PairReads(s: string, i: nat, dot: nat, end: nat)
    requires NameIn(s, i, dot) && dot < |s| && s[dot] == '.' && NameIn(s, dot + 1, end)
    requires end == |s| || !IsWord(s[end])
    ensures PairAt(s, i) == Pair(s[i..dot], s[dot + 1..end], end)
    ensures s[i] != ' '
  {
    WordEndIs(s, i, dot);
    WordEndIs(s, dot + 1, end);
  }

  lemma PairFound(s: string, i: nat) returns (dot: nat)
    requires i <= |s| && PairAt(s, i).Pair?
    ensures NameIn(s, i, dot) && dot < |s| && s[dot] == '.' && NameIn(s, dot + 1, PairAt(s, i).end)
    ensures PairAt(s, i).end == |s| || !IsWord(s[PairAt(s, i).end])
    ensures PairAt(s, i).first == s[i..dot] && PairAt(s, i).second == s[dot + 1..PairAt(s, i).end]
  {
    dot := WordEnd(s, i);
    WordStops(s, dot + 1);
  }

  // One try finds exactly what the text says from there on.
  lemma MatchAtExactly(s: string, i: nat, spec: LinkSpec)
    requires i <= |s|
    ensures MatchAt(s, i) == Match(spec) <==> Says(s, i, spec)
  {
    if MatchAt(s, i) == Match(spec) {
      MatchSays(s, i);
    }
    if Says(s, i, spec) {
      var p :| Reads(s, i, p) && NamesAt(s, p) == spec;
      ReadsMatch(s, i, p);
    }
  }

  lemma ReadsMatch(s: string, i: nat, p: Places)
    requires i <= |s| && Reads(s, i, p)
    ensures MatchAt(s, i) == Match(NamesAt(s, p))
  {
    hide PairAt, SpaceEnd;
    PairReads(s, p.from, p.dot, p.output);
    PairReads(s, p.to, p.dot', p.input);
    SpaceEndIs(s, i, p.from);
    SpaceEndIs(s, p.output, p.arrow);
    SpaceEndIs(s, p.arrow + 2, p.to);
  }

  lemma MatchSays(s: string, i: nat)
    requires i <= |s| && MatchAt(s, i).Match?
    ensures Says(s, i, MatchAt(s, i).spec)
  {
    hide PairAt, SpaceEnd, NameIn, Spaces, IsWord;
    var from := SpaceEnd(s, i);
    SpacesSkipped(s, i);
    var left := PairAt(s, from);
    var dot := PairFound(s, from);
    var arrow := SpaceEnd(s, left.end);
    SpacesSkipped(s, left.end);
    var to := SpaceEnd(s, arrow + 2);
    SpacesSkipped(s, arrow + 2);
    var right := PairAt(s, to);
    var dot' := PairFound(s, to);
    assert Reads(s, i, Places(from, dot, left.end, arrow, to, dot', right.end));
  }

  // A text parses to what it says at the first place where it says anything.
  lemma ParseExactly(s: string, spec: LinkSpec)
    ensures ParseLink(s) == Match(spec)
       <==> exists i :: 0 <= i <= |s| && Says(s, i, spec) && forall j, other :: 0 <= j < i ==> !Says(s, j, other)
    ensures ParseLink(s) == NoMatch <==> forall i, other :: 0 <= i <= |s| ==> !Says(s, i, other)
  {
    hide MatchAt, Says;
    var at := SearchFirst(s, 0);
    forall i, other | 0 <= i <= |s|
      ensures MatchAt(s, i) == Match(other) <==> Says(s, i, other)
    {
      MatchAtExactly(s, i, other);
    }
  }

  lemma {:induction false} SearchFirst(s: string, i: nat) returns (at: nat)
    requires i <= |s|
    ensures i <= at <= |s| && Search(s, i) == MatchAt(s, at)
    ensures forall j :: i <= j < at ==> MatchAt(s, j) == NoMatch
    ensures Search(s, i) == NoMatch ==> at == |s|
    decreases |s| - i
  {
    hide MatchAt;
    at := i;
    if !(MatchAt(s, i).Match? || i == |s|) {
      at := SearchFirst(s, i + 1);
    }
  }

  // The example of the documentation.
  lemma ParseExample()
    ensures FormatLink(LinkSpec("a", "out", "b", "in")) == "a.out -> b.in"
    ensures ParseLink("a.out -> b.in") == Match(LinkSpec("a", "out", "b", "in"))
  {
    hide ParseLink;
    var spec := LinkSpec("a", "out", "b", "in");
    assert FormatLink(spec) == "a.out -> b.in";
    ParseFormat(spec);
  }

  // The spaces around the arrow may be missing.
  lemma ParseLoose()
    ensures ParseLink("a.b->c.d2") == Match(LinkSpec("a", "b", "c", "d2"))
  {
    hide MatchAt;
    ReadsMatch("a.b->c.d2", 0, Places(0, 1, 3, 3, 5, 6, 9));
  }

  // The names of the link table are in the form `format_link` gives them.
  predicate IsCanonical(link: string) {
    var p := ParseLink(link);
    p.Match? && FormatLink(p.spec) == link
  }

  function SpecOf(link: string): (spec: LinkSpec)
    requires IsCanonical(link)
    ensures ParseLink(link) == Match(spec) && FormatLink(spec) == link
  {
    ParseLink(link).spec
  }

  // Writing a link in its canonical form changes neither what it says nor, a
  // second time, how it reads.
  lemma CanonicalStable(s: string)
    requires ParseLink(s).Match?
    ensures IsCanonical(FormatLink(ParseLink(s).spec))
    ensures ParseLink(FormatLink(ParseLink(s).spec)) == ParseLink(s)
  {
    ParseFormat(ParseLink(s).spec);
  }

  // Two links of a table are the same if they join the same ports.
  lemma CanonicalInjective(a: string, b: string)
    requires IsCanonical(a) && IsCanonical(b) && SpecOf(a) == SpecOf(b)
    ensures a == b
  {
  }

  // ---- Configurations ----

  // What the engine sees of an app's configuration: the identity string it
  // compares by, and the callbacks of the app it makes.
  datatype AppArg = AppArg(identity: string, hasPull: bool, hasPush: bool, hasStop: bool)

  class Configuration {
    var apps: map<string, AppArg>
    var links: set<string>

    ghost predicate Valid()
      reads this
    {
      forall l :: l in links ==> IsCanonical(l)
    }

    constructor ()
      ensures Valid() && apps == map[] && links == {}
    {
      apps := map[];
      links := {};
    }

    method App(name: string, app: AppArg)
      requires Valid()
      modifies this
      ensures Valid() && apps == old(apps)[name := app] && links == old(links)
    {
      apps := apps[name := app];
    }

    // False is the panic on a link that does not parse.
    method Link(spec: string) returns (ok: bool)
      requires Valid()
      modifies this
      ensures Valid() && apps == old(apps)
      ensures ok <==> ParseLink(spec).Match?
      ensures links == old(links) + if ok then {FormatLink(ParseLink(spec).spec)} else {}
    {
      var parsed := ParseLink(spec);
      if parsed.NoMatch? {
        return false;
      }
      CanonicalStable(spec);
      links := links + {FormatLink(parsed.spec)};
      ok := true;
    }
  }
}
