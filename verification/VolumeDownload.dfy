/** The other direction: the server lists the volumes of a package in a manifest, and the
    client downloads them, over as many interrupted sessions as it takes. */
module VolumeDownload {
  import opened Wrappers
  import opened ZipVolumes
  import Listing
  import Text

  datatype Link = Link(url: string, hash: string)

  predicate IsBreak(c: char) {
    c == '\n' || c == '\r'
  }

  predicate OneLine(s: string) {
    forall i | 0 <= i < |s| :: !IsBreak(s[i])
  }

  /** System.getProperty("line.separator"). */
  predicate IsSeparator(sep: string) {
    sep == "\n" || sep == "\r\n" || sep == "\r"
  }

  /** The length of the line a text starts with. */
  function LineLength(s: string): (n: nat)
    ensures n <= |s| && OneLine(s[..n]) && (n < |s| ==> IsBreak(s[n]))
  {
    if s == [] || IsBreak(s[0]) then 0
    else
      var n := LineLength(s[1..]);
      assert forall i | 0 <= i < n :: s[i + 1] == s[1..][..n][i];
      n + 1
  }

  /** What follows a line break, which may be two characters. */
  function AfterBreak(s: string): string
    requires s != [] && IsBreak(s[0])
  {
    if |s| > 1 && s[0] == '\r' && s[1] == '\n' then s[2..] else s[1..]
  }

  /** BufferedReader.readLine until it returns null. */
  function Lines(s: string): seq<string>
    decreases |s|
  {
    if s == [] then []
    else
      var n := LineLength(s);
      [s[..n]] + if n < |s| then Lines(AfterBreak(s[n..])) else []
  }

  /** String.split on a colon: no trailing empty parts. */
  function Parts(s: string): seq<string>
    decreases |s|
  {
    var i := Text.IndexOf(s, ':');
    if i < 0 then [s] else [s[..i]] + Parts(s[i + 1..])
  }

  function WithoutTrailing(parts: seq<string>): seq<string> {
    if parts == [] || parts[|parts| - 1] != "" then parts else WithoutTrailing(parts[..|parts| - 1])
  }

  function Split(s: string): seq<string> {
    if ':' in s then WithoutTrailing(Parts(s)) else [s]
  }

  lemma SplitPair(a: string, b: string)
    requires ':' !in a && ':' !in b && b != ""
    ensures Split(a + ":" + b) == [a, b]
  {
    var s := a + ":" + b;
    Text.SeparatorPosition(a, ':', b);
    assert s == a + [':'] + b && s[|a|] == ':';
    assert s[..|a|] == a && s[|a| + 1..] == b;
    assert Parts(b) == [b];
    assert Parts(s) == [a] + [b];
  }

  /** Some part is not empty. */
  ghost predicate Filled(parts: seq<string>) {
    exists k :: 0 <= k < |parts| && parts[k] != ""
  }

  /** The text has a character other than a colon. */
  ghost predicate MoreThanColons(s: string) {
    exists j :: 0 <= j < |s| && s[j] != ':'
  }

  lemma FilledCons(x: string, parts: seq<string>)
    ensures Filled([x] + parts) <==> x != "" || Filled(parts)
  {
    var all := [x] + parts;
    assert forall k | 0 <= k < |parts| :: all[k + 1] == parts[k];
    if k :| 0 <= k < |all| && all[k] != "" {
      assert k > 0 ==> parts[k - 1] != "";
    }
    if k :| 0 <= k < |parts| && parts[k] != "" {
      assert all[k + 1] != "";
    }
    if x != "" {
      assert all[0] != "";
    }
  }

  lemma BehindColon(s: string)
    requires Text.IndexOf(s, ':') >= 0
    ensures var i := Text.IndexOf(s, ':'); MoreThanColons(s) <==> i > 0 || MoreThanColons(s[i + 1..])
  {
    var i := Text.IndexOf(s, ':');
    var rest := s[i + 1..];
    if j :| 0 <= j < |s| && s[j] != ':' {
      assert j > i ==> rest[j - i - 1] != ':';
    }
    if j :| 0 <= j < |rest| && rest[j] != ':' {
      assert s[i + 1 + j] != ':';
    }
    if i > 0 {
      assert s[0] != ':';
    }
  }

  lemma {:induction false} PartsFilled(s: string)
    ensures Filled(Parts(s)) <==> MoreThanColons(s)
    decreases |s|
  {
    hide Filled, MoreThanColons, Text.IndexOf;
    var i := Text.IndexOf(s, ':');
    if i < 0 {
      OnePart(s);
    } else {
      PartsFilled(s[i + 1..]);
      FilledCons(s[..i], Parts(s[i + 1..]));
      BehindColon(s);
    }
  }

  lemma OnePart(s: string)
    requires Text.IndexOf(s, ':') < 0
    ensures Filled([s]) <==> MoreThanColons(s)
  {
    assert [s][0] == s;
    assert s != "" ==> s[0] in s && s[0] != ':';
  }

  /** Of the parts, all up to the last that is not empty are left. */
  lemma {:induction false} TrailingDropped(x: string, parts: seq<string>)
    ensures var r := WithoutTrailing([x] + parts);
            if Filled(parts) then |r| >= 2 && r[0] == x && r[1] == parts[0] else |r| <= 1
  {
    var all := [x] + parts;
    if parts == [] {
    } else if parts[|parts| - 1] != "" {
    } else {
      var front := parts[..|parts| - 1];
      assert all[..|all| - 1] == [x] + front;
      TrailingDropped(x, front);
      if k :| 0 <= k < |parts| && parts[k] != "" {
        assert front[k] != "";
      }
      if k :| 0 <= k < |front| && front[k] != "" {
        assert parts[k] != "";
      }
    }
  }

  /** A line has a second part exactly if something other than a colon follows its first colon: colons at
      the end are dropped. The first two parts are what precedes the first colon, and what follows
      it up to the next. */
  lemma ReadableExactly(line: string)
    ensures var i := Text.IndexOf(line, ':');
            && (Readable(line) <==> i >= 0 && MoreThanColons(line[i + 1..]))
            && (Readable(line) ==>
                  var rest := line[i + 1..];
                  var end := if Text.IndexOf(rest, ':') >= 0 then Text.IndexOf(rest, ':') else |rest|;
                  Split(line)[0] == line[..i] && Split(line)[1] == rest[..end])
  {
    hide Filled, MoreThanColons, Text.IndexOf, WithoutTrailing;
    var i := Text.IndexOf(line, ':');
    if i >= 0 {
      PartsFilled(line[i + 1..]);
      TrailingDropped(line[..i], Parts(line[i + 1..]));
      assert Parts(line) == [line[..i]] + Parts(line[i + 1..]);
    }
  }

  /** A volume and its hash, as Pack lists them. */
  datatype Listed = Listed(name: string, hash: string)

  function ListedPath(id: nat, e: Listed): string {
    Text.Decimal(id) + "/" + e.name
  }

  function ManifestLine(id: nat, e: Listed): string {
    ListedPath(id, e) + ":" + e.hash
  }

  function Manifest(id: nat, es: seq<Listed>, sep: string): string {
    if es == [] then "" else ManifestLine(id, es[0]) + sep + Manifest(id, es[1..], sep)
  }

  function LinkOf(urlBase: string, id: nat, e: Listed): Link {
    Link(urlBase + "/" + ListedPath(id, e), e.hash)
  }

  function LinksOf(urlBase: string, id: nat, es: seq<Listed>): (r: seq<Link>)
    ensures |r| == |es| && forall i | 0 <= i < |es| :: r[i] == LinkOf(urlBase, id, es[i])
  {
    seq(|es|, i requires 0 <= i < |es| => LinkOf(urlBase, id, es[i]))
  }

  /** Names without colons, slashes and line breaks; hashes without colons and line breaks, not empty. */
  predicate PlainListed(e: Listed) {
    && OneLine(e.name) && ':' !in e.name && '/' !in e.name && e.name != ""
    && OneLine(e.hash) && ':' !in e.hash && e.hash != ""
  }

  predicate Readable(line: string) {
    |Split(line)| >= 2
  }

  /** The file .MANIFEST of a package. */
  class ManifestFile {
    var text: string

    constructor ()
      ensures text == ""
    {
      text := "";
    }

    /** The loop of Pack over the volumes. */
    method Write(id: nat, es: seq<Listed>, sep: string)
      modifies this
      ensures text == Manifest(id, es, sep)
    {
      text := "";
      var i := 0;
      while i < |es|
        invariant 0 <= i <= |es|
        invariant text + Manifest(id, es[i..], sep) == Manifest(id, es, sep)
      {
        assert es[i..][1..] == es[i + 1..];
        Listing.Regroup(text, ManifestLine(id, es[i]) + sep, Manifest(id, es[i + 1..], sep));
        text := text + (ManifestLine(id, es[i]) + sep);
        i := i + 1;
      }
    }
  }

  function LinkOfLine(urlBase: string, line: string): Link
    requires Readable(line)
  {
    Link(urlBase + "/" + Split(line)[0], Split(line)[1])
  }

  /** The loop of PendingPackage over the lines; None where the source throws on a line
      without a hash. */
  method PendingPackage(text: string, urlBase: string) returns (r: Option<seq<Link>>)
    ensures r.Some? <==> forall line | line in Lines(text) :: Readable(line)
    ensures r.Some? ==> |r.value| == |Lines(text)|
    ensures r.Some? ==> forall i | 0 <= i < |r.value| :: r.value[i] == LinkOfLine(urlBase, Lines(text)[i])
  {
    hide Lines, Split;
    var lines := Lines(text);
    var links := [];
    for i := 0 to |lines|
      invariant |links| == i
      invariant forall j | 0 <= j < i :: Readable(lines[j]) && links[j] == LinkOfLine(urlBase, lines[j])
    {
      assert lines[i] in Lines(text);
      var parts := Split(lines[i]);
      if |parts| < 2 {
        return None;
      }
      links := links + [Link(urlBase + "/" + parts[0], parts[1])];
      assert links[i] == LinkOfLine(urlBase, lines[i]);
    }
    r := Some(links);
  }

  lemma {:induction false} LineLengthOf(line: string, rest: string)
    requires OneLine(line) && (rest == [] || IsBreak(rest[0]))
    ensures LineLength(line + rest) == |line|
  {
    if line == [] {
      assert line + rest == rest;
    } else {
      assert (line + rest)[1..] == line[1..] + rest;
      LineLengthOf(line[1..], rest);
    }
  }

  lemma FirstLine(line: string, sep: string, rest: string)
    requires OneLine(line) && IsSeparator(sep) && (rest == [] || rest[0] != '\n')
    ensures Lines(line + sep + rest) == [line] + Lines(rest)
  {
    hide LineLength, OneLine;
    var s := line + sep + rest;
    assert s == line + (sep + rest);
    LineLengthOf(line, sep + rest);
    assert s[..|line|] == line && s[|line|..] == sep + rest;
    assert AfterBreak(sep + rest) == rest;
  }

  lemma DecimalIsPlain(id: nat)
    ensures OneLine(Text.Decimal(id)) && ':' !in Text.Decimal(id) && Text.Decimal(id) != ""
    ensures Text.Decimal(id)[0] != '\n'
  {
  }

  lemma LineIsPlain(id: nat, e: Listed)
    requires PlainListed(e)
    ensures OneLine(ManifestLine(id, e)) && ':' !in ListedPath(id, e)
    ensures ManifestLine(id, e) != [] && ManifestLine(id, e)[0] != '\n'
    ensures Split(ManifestLine(id, e)) == [ListedPath(id, e), e.hash]
  {
    DecimalIsPlain(id);
    var d := Text.Decimal(id);
    PlainConcat(d, "/");
    PlainConcat(d + "/", e.name);
    PlainConcat(ListedPath(id, e), ":");
    PlainConcat(ListedPath(id, e) + ":", e.hash);
    SplitPair(ListedPath(id, e), e.hash);
    assert ManifestLine(id, e)[0] == d[0];
  }

  lemma PlainConcat(a: string, b: string)
    requires OneLine(a) && OneLine(b)
    ensures OneLine(a + b) && (':' !in a && ':' !in b ==> ':' !in a + b)
  {
  }

  /** The manifest reads back as the volumes it was written for, in order, with their hashes. */
  lemma {:induction false} ManifestRoundTrip(urlBase: string, id: nat, es: seq<Listed>, sep: string)
    requires IsSeparator(sep) && forall i | 0 <= i < |es| :: PlainListed(es[i])
    ensures var lines := Lines(Manifest(id, es, sep));
            && |lines| == |es|
            && forall i | 0 <= i < |es| :: Readable(lines[i]) && LinkOfLine(urlBase, lines[i]) == LinkOf(urlBase, id, es[i])
  {
    hide ManifestLine, ListedPath, Split;
    if es != [] {
      var rest := es[1..];
      forall i | 0 <= i < |rest| ensures PlainListed(rest[i]) {
        assert rest[i] == es[i + 1];
      }
      ManifestRoundTrip(urlBase, id, rest, sep);
      LineIsPlain(id, es[0]);
      if rest != [] {
        LineIsPlain(id, rest[0]);
        assert Manifest(id, rest, sep)[0] == ManifestLine(id, rest[0])[0];
      }
      FirstLine(ManifestLine(id, es[0]), sep, Manifest(id, rest, sep));
      var lines := Lines(Manifest(id, es, sep));
      assert lines[0] == ManifestLine(id, es[0]) && lines[1..] == Lines(Manifest(id, rest, sep));
      forall i | 0 <= i < |es|
        ensures Readable(lines[i]) && LinkOfLine(urlBase, lines[i]) == LinkOf(urlBase, id, es[i]) {
        if i > 0 {
          assert lines[i] == lines[1..][i - 1] && es[i] == rest[i - 1];
        }
      }
    }
  }

  // The client.

  /** new File(new URL(url).getFile()).getName(): what follows the last slash. */
  function NameOf(url: string): string {
    url[Text.LastIndexOf(url, '/') + 1..]
  }

  lemma NameOfLink(urlBase: string, id: nat, e: Listed)
    requires '/' !in e.name
    ensures NameOf(LinkOf(urlBase, id, e).url) == e.name
  {
    var front := urlBase + "/" + Text.Decimal(id);
    assert LinkOf(urlBase, id, e).url == front + ['/'] + e.name;
    Text.SeparatorPosition(front, '/', e.name);
  }

  /** The links whose volumes are not in in/volumes. */
  function Missing(links: seq<Link>, there: map<string, Bytes>): seq<Link> {
    if links == [] then []
    else Missing(links[..|links| - 1], there) + if NameOf(links[|links| - 1].url) in there then [] else [links[|links| - 1]]
  }

  predicate DistinctNames(links: seq<Link>) {
    forall i, j | 0 <= i < j < |links| :: NameOf(links[i].url) != NameOf(links[j].url)
  }

  // The download loop.

  /** What comes of asking for a volume: the volume, a timeout or broken connection, or any other
      exception, on downloading or on accepting it. */
  datatype Outcome = Fetched(content: Bytes) | TimedOut | Thrown

  /** The outcome for each round and link. */
  type Network = (nat, Link) -> Outcome

  datatype Fate = Pending | Got(content: Bytes) | Dropped

  /** What has become of a link after k rounds: only timeouts are tried again. */
  function FateAfter(net: Network, l: Link, k: nat): Fate {
    if k == 0 then Pending
    else
      match FateAfter(net, l, k - 1)
      case Pending =>
        (match net(k - 1, l)
         case Fetched(content) => Got(content)
         case TimedOut => Pending
         case Thrown => Dropped)
      case decided => decided
  }

  /** The links that are still tried after k rounds. */
  function Waiting(net: Network, links: seq<Link>, k: nat): seq<Link> {
    if links == [] then []
    else Waiting(net, links[..|links| - 1], k) + if FateAfter(net, links[|links| - 1], k) == Pending then [links[|links| - 1]] else []
  }

  lemma {:induction false} WaitingExact(net: Network, links: seq<Link>, k: nat)
    ensures forall l :: l in Waiting(net, links, k) <==> l in links && FateAfter(net, l, k) == Pending
  {
    hide FateAfter;
    if links != [] {
      WaitingExact(net, links[..|links| - 1], k);
      assert links == links[..|links| - 1] + [links[|links| - 1]];
    }
  }

  /** One more round keeps, of those that waited, the ones that timed out. */
  function TimedOutOf(net: Network, links: seq<Link>, k: nat): seq<Link> {
    if links == [] then []
    else TimedOutOf(net, links[..|links| - 1], k) + if net(k, links[|links| - 1]) == TimedOut then [links[|links| - 1]] else []
  }

  lemma {:induction false} TimedOutSnoc(net: Network, links: seq<Link>, l: Link, k: nat)
    ensures TimedOutOf(net, links + [l], k) == TimedOutOf(net, links, k) + if net(k, l) == TimedOut then [l] else []
  {
    assert (links + [l])[..|links|] == links;
  }

  lemma {:induction false} NextWaiting(net: Network, links: seq<Link>, k: nat)
    ensures TimedOutOf(net, Waiting(net, links, k), k) == Waiting(net, links, k + 1)
  {
    if links != [] {
      var front, last := links[..|links| - 1], links[|links| - 1];
      NextWaiting(net, front, k);
      if FateAfter(net, last, k) == Pending {
        TimedOutSnoc(net, Waiting(net, front, k), last, k);
      } else {
        assert Waiting(net, links, k) == Waiting(net, front, k);
      }
    }
  }

  /** The fate of a link in round k, when those tried have had their turn. */
  function FateDuring(net: Network, tried: seq<Link>, l: Link, k: nat): Fate {
    FateAfter(net, l, if l in tried then k + 1 else k)
  }

  /** The volumes after part of a round: what was fetched is there, and nothing else is new. */
  ghost predicate HoldsFetched(net: Network, links: seq<Link>, before: map<string, Bytes>, now: map<string, Bytes>, tried: seq<Link>, k: nat) {
    && (forall n | n in before :: n in now)
    && (forall l | l in links && FateDuring(net, tried, l, k).Got? ::
          NameOf(l.url) in now && now[NameOf(l.url)] == FateDuring(net, tried, l, k).content)
    && (forall n | n in now && n !in before :: WasFetched(net, links, tried, k, n))
  }

  ghost predicate WasFetched(net: Network, links: seq<Link>, tried: seq<Link>, k: nat, n: string) {
    exists l :: l in links && NameOf(l.url) == n && FateDuring(net, tried, l, k).Got?
  }

  /** The client's state on disk: .init and in/volumes. */
  class DownloadState {
    var init: Option<seq<Link>>
    var volumes: map<string, Bytes>

    constructor ()
      ensures init == None && volumes == map[]
    {
      init := None;
      volumes := map[];
    }

    method PersistInitInfo(links: seq<Link>)
      modifies this
      ensures init == Some(links) && volumes == old(volumes)
    {
      init := Some(links);
    }

    method AcceptVolume(name: string, content: Bytes)
      modifies this
      ensures volumes == old(volumes)[name := content] && init == old(init)
    {
      volumes := volumes[name := content];
    }

    /** The download loop, for as many rounds as the time allows. DownloadComplete is sent if and only
        if nothing is left to try; then all volumes are there if and only if none was dropped. */
    method DownloadVolumes(links: seq<Link>, net: Network, limit: nat) returns (rest: seq<Link>)
      requires DistinctNames(links) && forall l | l in links :: NameOf(l.url) !in volumes
      modifies this
      ensures init == old(init)
      ensures exists k: nat :: k <= limit && rest == Waiting(net, links, k) && (k == limit || rest == []) &&
                HoldsFetched(net, links, old(volumes), volumes, [], k)
      ensures rest == [] ==>
                ((forall l | l in links :: NameOf(l.url) in volumes) <==> forall l | l in links :: FateAfter(net, l, limit) != Dropped)
    {
      hide HoldsFetched, Waiting, NameOf, DistinctNames, FateAfter;
      rest := links;
      var k := 0;
      AllWaiting(net, links);
      NothingFetched(net, links, volumes);
      while |rest| > 0 && k < limit
        invariant k <= limit && init == old(init)
        invariant rest == Waiting(net, links, k)
        invariant HoldsFetched(net, links, old(volumes), volumes, [], k)
        decreases limit - k
      {
        var retry := [];
        for i := 0 to |rest|
          invariant init == old(init)
          invariant retry == TimedOutOf(net, rest[..i], k)
          invariant HoldsFetched(net, links, old(volumes), volumes, rest[..i], k)
        {
          var l := rest[i];
          assert rest[..i + 1] == rest[..i] + [l];
          TimedOutSnoc(net, rest[..i], l, k);
          WaitingExact(net, links, k);
          OneMoreTried(net, links, old(volumes), volumes, rest[..i], l, k);
          match net(k, l) {
            case Fetched(content) => AcceptVolume(NameOf(l.url), content);
            case TimedOut => retry := retry + [l];
            case Thrown =>
          }
        }
        assert rest[..|rest|] == rest;
        NextWaiting(net, links, k);
        RoundDone(net, links, old(volumes), volumes, rest, k);
        rest := retry;
        k := k + 1;
      }
      if rest == [] {
        Decided(net, links, old(volumes), volumes, k, limit);
      }
    }

    /** restoreInitInfo: the volumes still to be downloaded; without .init everything is cleaned. */
    method RestoreInitInfo() returns (links: Option<seq<Link>>)
      modifies this
      ensures init == old(init)
      ensures links == if init.None? then None else Some(Missing(init.value, volumes))
      ensures volumes == if init.None? then map[] else old(volumes)
    {
      if init.None? {
        volumes := map[];
        return None;
      }
      var all := init.value;
      var newList := [];
      for i := 0 to |all|
        invariant newList == Missing(all[..i], volumes) && init == old(init) && volumes == old(volumes)
      {
        assert all[..i + 1][..i] == all[..i];
        if NameOf(all[i].url) !in volumes {
          newList := newList + [all[i]];
        }
      }
      assert all[..|all|] == all;
      links := Some(newList);
    }
  }

  lemma {:induction false} AllWaiting(net: Network, links: seq<Link>)
    ensures Waiting(net, links, 0) == links
  {
    hide NameOf;
    if links != [] {
      AllWaiting(net, links[..|links| - 1]);
    }
  }

  lemma NothingFetched(net: Network, links: seq<Link>, there: map<string, Bytes>)
    ensures HoldsFetched(net, links, there, there, [], 0)
  {
  }

  /** One more link of the round is tried. */
  lemma OneMoreTried(net: Network, links: seq<Link>, old': map<string, Bytes>, before: map<string, Bytes>, tried: seq<Link>, l: Link, k: nat)
    requires DistinctNames(links) && l in links && FateAfter(net, l, k) == Pending
    requires HoldsFetched(net, links, old', before, tried, k)
    ensures var now := if net(k, l).Fetched? then before[NameOf(l.url) := net(k, l).content] else before;
            HoldsFetched(net, links, old', now, tried + [l], k)
  {
    hide NameOf, DistinctNames, WasFetched;
    var next := tried + [l];
    var now := if net(k, l).Fetched? then before[NameOf(l.url) := net(k, l).content] else before;
    OneName(links, l);
    TriedFates(net, tried, l, k);
    hide FateDuring, FateAfter;
    forall n | n in now && n !in old' ensures WasFetched(net, links, next, k, n) {
      if n == NameOf(l.url) && net(k, l).Fetched? {
        FetchedNow(net, links, next, k, l);
      } else {
        StillFetched(net, links, tried, l, k, n);
      }
    }
  }

  /** Trying l decides l and nothing else. */
  lemma TriedFates(net: Network, tried: seq<Link>, l: Link, k: nat)
    requires FateAfter(net, l, k) == Pending
    ensures forall x | x != l :: FateDuring(net, tried + [l], x, k) == FateDuring(net, tried, x, k)
    ensures var f := FateDuring(net, tried + [l], l, k);
            (f.Got? <==> net(k, l).Fetched?) && (f.Got? ==> f.content == net(k, l).content)
    ensures FateDuring(net, tried, l, k).Got? ==> FateDuring(net, tried, l, k) == FateDuring(net, tried + [l], l, k)
  {
    var next := FateAfter(net, l, k + 1);
    assert (next.Got? <==> net(k, l).Fetched?) && (next.Got? ==> next.content == net(k, l).content);
    hide FateAfter;
    assert forall x :: x in tried + [l] <==> x in tried || x == l;
  }

  lemma FetchedNow(net: Network, links: seq<Link>, tried: seq<Link>, k: nat, l: Link)
    requires l in links && FateDuring(net, tried, l, k).Got?
    ensures WasFetched(net, links, tried, k, NameOf(l.url))
  {
  }

  lemma StillFetched(net: Network, links: seq<Link>, tried: seq<Link>, l: Link, k: nat, n: string)
    requires WasFetched(net, links, tried, k, n) && FateAfter(net, l, k) == Pending
    ensures WasFetched(net, links, tried + [l], k, n)
  {
    TriedFates(net, tried, l, k);
    hide FateDuring;
    var x :| x in links && NameOf(x.url) == n && FateDuring(net, tried, x, k).Got?;
    assert FateDuring(net, tried + [l], x, k).Got?;
  }

  lemma OneName(links: seq<Link>, l: Link)
    requires DistinctNames(links) && l in links
    ensures forall x | x in links && NameOf(x.url) == NameOf(l.url) :: x == l
  {
    hide NameOf;
    forall x | x in links && NameOf(x.url) == NameOf(l.url) ensures x == l {
      var i :| 0 <= i < |links| && links[i] == x;
      var j :| 0 <= j < |links| && links[j] == l;
    }
  }

  /** After a round all links have had their turn, or were decided before. */
  lemma RoundDone(net: Network, links: seq<Link>, old': map<string, Bytes>, now: map<string, Bytes>, rest: seq<Link>, k: nat)
    requires rest == Waiting(net, links, k) && HoldsFetched(net, links, old', now, rest, k)
    ensures HoldsFetched(net, links, old', now, [], k + 1)
  {
    hide NameOf, Waiting;
    WaitingExact(net, links, k);
    forall l | l in links ensures FateDuring(net, [], l, k + 1) == FateDuring(net, rest, l, k) {
    }
    hide FateDuring;
    forall n | n in now && n !in old' ensures WasFetched(net, links, [], k + 1, n) {
      var l :| l in links && NameOf(l.url) == n && FateDuring(net, rest, l, k).Got?;
      assert FateDuring(net, [], l, k + 1).Got?;
    }
  }

  lemma {:induction false} Stays(net: Network, l: Link, k: nat, limit: nat)
    requires k <= limit && FateAfter(net, l, k) != Pending
    ensures FateAfter(net, l, limit) == FateAfter(net, l, k)
    decreases limit - k
  {
    if k < limit {
      Stays(net, l, k + 1, limit);
    }
  }

  /** With nothing left to try, a volume is there exactly if its link was not dropped. */
  lemma Decided(net: Network, links: seq<Link>, old': map<string, Bytes>, now: map<string, Bytes>, k: nat, limit: nat)
    requires DistinctNames(links) && k <= limit && Waiting(net, links, k) == [] && HoldsFetched(net, links, old', now, [], k)
    requires forall l | l in links :: NameOf(l.url) !in old'
    ensures forall l | l in links :: NameOf(l.url) in now <==> FateAfter(net, l, limit) != Dropped
  {
    hide NameOf, Waiting;
    WaitingExact(net, links, k);
    forall l | l in links ensures NameOf(l.url) in now <==> FateAfter(net, l, limit) != Dropped {
      assert l !in Waiting(net, links, k);
      Stays(net, l, k, limit);
      OneName(links, l);
    }
  }

  /** A link whose first download throws is dropped, after one round nothing is left to try, and no
      volume has come. */
  lemma ThrownIsDropped(net: Network, l: Link, k: nat)
    requires k > 0 && net(0, l) == Thrown
    ensures FateAfter(net, l, k) == Dropped && Waiting(net, [l], k) == []
    ensures forall now | HoldsFetched(net, [l], map[], now, [], k) :: now == map[]
  {
    hide NameOf;
    assert FateAfter(net, l, 1) == Dropped;
    Stays(net, l, 1, k);
    assert [l][..0] == [];
    forall now | HoldsFetched(net, [l], map[], now, [], k) ensures now == map[] {
      assert forall n :: !WasFetched(net, [l], [], k, n);
    }
  }

  /** A run of the loop that ends with nothing left to try, so that the download is reported
      complete, and without the volume. */
  method CompleteWithoutVolume(l: Link, net: Network, limit: nat) returns (state: DownloadState, rest: seq<Link>)
    requires limit > 0 && net(0, l) == Thrown
    ensures rest == [] && state.volumes == map[]
  {
    hide FateAfter, HoldsFetched, Waiting, NameOf;
    state := new DownloadState();
    state.PersistInitInfo([l]);
    rest := state.DownloadVolumes([l], net, limit);
    ghost var k: nat :| k <= limit && rest == Waiting(net, [l], k) && (k == limit || rest == []) && HoldsFetched(net, [l], map[], state.volumes, [], k);
    if k == 0 {
      AllWaiting(net, [l]);
    } else {
      ThrownIsDropped(net, l, k);
    }
  }

  /** A package being downloaded: its manifest, the list the session works on and what is there. */
  datatype Session = Session(manifest: seq<Link>, list: seq<Link>, there: map<string, Bytes>)

  /** Accept: a volume of the list arrives with the right hash. Resume: the process is
      interrupted and the list restored. Persist: the current list replaces the one in .init. */
  datatype Event = Accept(index: nat, content: Bytes) | Resume | Persist

  ghost predicate CanHappen(hash: Bytes -> string, s: Session, e: Event) {
    e.Accept? ==> e.index < |s.list| && hash(e.content) == s.list[e.index].hash
  }

  datatype Stored = Stored(session: Session, init: seq<Link>)

  function Step(x: Stored, e: Event): Stored
    requires e.Accept? ==> e.index < |x.session.list|
  {
    var s := x.session;
    match e
    case Accept(i, content) => x.(session := s.(there := s.there[NameOf(s.list[i].url) := content]))
    case Resume => x.(session := s.(list := Missing(x.init, s.there)))
    case Persist => x.(init := s.list)
  }

  ghost predicate Names(links: seq<Link>, name: string) {
    exists i :: 0 <= i < |links| && NameOf(links[i].url) == name
  }

  /** All of a list is in the manifest, and what the list lacks of it is there. */
  ghost predicate Covers(links: seq<Link>, s: Session) {
    && (forall l | l in links :: l in s.manifest)
    && (forall l | l in s.manifest :: l in links || NameOf(l.url) in s.there)
  }

  ghost predicate Inv(hash: Bytes -> string, x: Stored) {
    var s := x.session;
    && DistinctNames(s.manifest) && DistinctNames(s.list) && DistinctNames(x.init)
    && Covers(s.list, s) && Covers(x.init, s)
    && (forall n | n in s.there :: exists i :: 0 <= i < |s.manifest| && NameOf(s.manifest[i].url) == n && hash(s.there[n]) == s.manifest[i].hash)
  }

  lemma {:induction false} MissingExact(links: seq<Link>, there: map<string, Bytes>)
    ensures forall l :: l in Missing(links, there) <==> l in links && NameOf(l.url) !in there
  {
    hide NameOf;
    if links != [] {
      var front, last := links[..|links| - 1], links[|links| - 1];
      assert links == front + [last];
      MissingExact(front, there);
    }
  }

  lemma {:induction false} MissingDistinct(links: seq<Link>, there: map<string, Bytes>)
    requires DistinctNames(links)
    ensures DistinctNames(Missing(links, there))
  {
    hide NameOf;
    if links != [] {
      var front, last := links[..|links| - 1], links[|links| - 1];
      MissingDistinct(front, there);
      var m := Missing(front, there);
      MissingExact(front, there);
      forall i | 0 <= i < |m| ensures NameOf(m[i].url) != NameOf(last.url) {
        assert m[i] in m;
        var j :| 0 <= j < |front| && front[j] == m[i];
        assert links[j] == m[i];
      }
    }
  }

  function NamesIn(links: seq<Link>): (r: seq<string>)
    ensures |r| == |links| && forall i | 0 <= i < |links| :: r[i] == NameOf(links[i].url)
  {
    seq(|links|, i requires 0 <= i < |links| => NameOf(links[i].url))
  }

  /** The names of a list. */
  ghost function NameSet(links: seq<Link>): set<string> {
    set n | n in NamesIn(links)
  }

  lemma NameSetExact(links: seq<Link>)
    requires DistinctNames(links)
    ensures |NameSet(links)| == |links| && forall n :: n in NameSet(links) <==> Names(links, n)
    ensures forall l | l in links :: NameOf(l.url) in NameSet(links)
  {
    hide NameOf;
    var a := NamesIn(links);
    Listing.DistinctSize(a, NameSet(links));
    forall n ensures n in NameSet(links) <==> Names(links, n) {
      if n in NameSet(links) {
        var i :| 0 <= i < |a| && a[i] == n;
      }
      if Names(links, n) {
        var i :| 0 <= i < |links| && NameOf(links[i].url) == n;
        assert a[i] == n;
      }
    }
    forall l | l in links ensures NameOf(l.url) in NameSet(links) {
      var i :| 0 <= i < |links| && links[i] == l;
      assert a[i] == NameOf(l.url);
    }
  }

  /** Lists without repeated names are counted by their names. */
  lemma Partition(manifest: seq<Link>, list: seq<Link>, there: map<string, Bytes>)
    requires DistinctNames(manifest) && DistinctNames(list)
    requires (forall l | l in manifest :: l in list <==> NameOf(l.url) !in there) && (forall l | l in list :: l in manifest)
    requires forall n | n in there :: Names(manifest, n)
    ensures |list| + |there| == |manifest|
  {
    hide NameOf, NameSet, DistinctNames;
    NameSetExact(manifest);
    NameSetExact(list);
    var all, left := NameSet(manifest), NameSet(list);
    forall n | n in left ensures n in all && n !in there {
      var i :| 0 <= i < |list| && NameOf(list[i].url) == n;
      assert list[i] in list;
    }
    forall n | n in all && n !in there ensures n in left {
      var j :| 0 <= j < |manifest| && NameOf(manifest[j].url) == n;
      assert manifest[j] in manifest;
    }
    assert all == left + there.Keys && left !! there.Keys;
    assert |all| == |left| + |there.Keys|;
  }

  lemma StepKeeps(hash: Bytes -> string, x: Stored, e: Event)
    requires Inv(hash, x) && CanHappen(hash, x.session, e)
    ensures Inv(hash, Step(x, e))
  {
    hide NameOf;
    var s := x.session;
    match e
    case Accept(i, content) =>
      assert s.list[i] in s.list;
      var y := Step(x, e).session;
      forall n | n in y.there ensures exists j :: 0 <= j < |y.manifest| && NameOf(y.manifest[j].url) == n && hash(y.there[n]) == y.manifest[j].hash {
        if n == NameOf(s.list[i].url) {
          var j :| 0 <= j < |s.manifest| && s.manifest[j] == s.list[i];
        }
      }
    case Resume =>
      MissingExact(x.init, s.there);
      MissingDistinct(x.init, s.there);
    case Persist =>
  }

  ghost predicate Run(hash: Bytes -> string, x: Stored, es: seq<Event>, r: Stored)
    decreases |es|
  {
    if es == [] then r == x else CanHappen(hash, x.session, es[0]) && Run(hash, Step(x, es[0]), es[1..], r)
  }

  lemma {:induction false} RunKeeps(hash: Bytes -> string, x: Stored, es: seq<Event>, r: Stored)
    requires Inv(hash, x) && Run(hash, x, es, r)
    ensures Inv(hash, r) && r.session.manifest == x.session.manifest
    decreases |es|
  {
    hide Inv;
    if es != [] {
      StepKeeps(hash, x, es[0]);
      RunKeeps(hash, Step(x, es[0]), es[1..], r);
    }
  }

  /** After any number of accepted volumes, interruptions and stored lists, the restored list
      and the accepted files partition the manifest. */
  lemma ResumeConserves(hash: Bytes -> string, manifest: seq<Link>, es: seq<Event>, r: Stored)
    requires DistinctNames(manifest) && Run(hash, Stored(Session(manifest, manifest, map[]), manifest), es, r)
    ensures var list, there := Missing(r.init, r.session.there), r.session.there;
            && (forall l | l in manifest :: l in list <==> NameOf(l.url) !in there)
            && (forall l | l in list :: l in manifest)
            && (forall n | n in there :: Names(manifest, n))
            && DistinctNames(list) && |list| + |there| == |manifest|
  {
    hide NameOf, Missing;
    RunKeeps(hash, Stored(Session(manifest, manifest, map[]), manifest), es, r);
    MissingExact(r.init, r.session.there);
    MissingDistinct(r.init, r.session.there);
    Partition(manifest, Missing(r.init, r.session.there), r.session.there);
  }

  /** With nothing left to download, the accepted files are the server's volumes. */
  lemma DownloadIsComplete(hash: Bytes -> string, urlBase: string, id: nat, vs: seq<Volume>, es: seq<Event>, r: Stored)
    requires forall a, b {:trigger hash(a), hash(b)} | hash(a) == hash(b) :: a == b
    requires forall i | 0 <= i < |vs| :: '/' !in vs[i].name
    requires forall i, j | 0 <= i < j < |vs| :: vs[i].name != vs[j].name
    requires var links := LinksOf(urlBase, id, Hashed(hash, vs)); Run(hash, Stored(Session(links, links, map[]), links), es, r)
    requires Missing(r.init, r.session.there) == []
    ensures forall n :: n in r.session.there <==> exists i :: 0 <= i < |vs| && vs[i].name == n
    ensures forall i | 0 <= i < |vs| :: r.session.there[vs[i].name] == vs[i].content
  {
    hide NameOf;
    var links := LinksOf(urlBase, id, Hashed(hash, vs));
    forall i | 0 <= i < |vs| ensures NameOf(links[i].url) == vs[i].name && links[i].hash == hash(vs[i].content) {
      NameOfLink(urlBase, id, Hashed(hash, vs)[i]);
    }
    RunKeeps(hash, Stored(Session(links, links, map[]), links), es, r);
    MissingExact(r.init, r.session.there);
    forall n | n in r.session.there ensures exists i :: 0 <= i < |vs| && vs[i].name == n && r.session.there[n] == vs[i].content {
      var i :| 0 <= i < |links| && NameOf(links[i].url) == n && hash(r.session.there[n]) == links[i].hash;
      assert vs[i].name == n;
    }
    forall i | 0 <= i < |vs| ensures vs[i].name in r.session.there {
      assert links[i] in links;
    }
  }

  function Hashed(hash: Bytes -> string, vs: seq<Volume>): (r: seq<Listed>)
    ensures |r| == |vs| && forall i | 0 <= i < |vs| :: r[i] == Listed(vs[i].name, hash(vs[i].content))
  {
    seq(|vs|, i requires 0 <= i < |vs| => Listed(vs[i].name, hash(vs[i].content)))
  }
}
