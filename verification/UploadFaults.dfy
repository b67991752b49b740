/** Where the guards of the upload end: exactly which packages may share a token, and when a
    package is sure to have been delivered by the time the client deletes it. */
module UploadFaults {
  import opened Wrappers
  import opened ZipVolumes
  import opened ChangeFiles
  import opened UploadServer
  import opened UploadRuns
  import Listing

  // Building runs.

  lemma {:induction false} Extend(cfg: Config, w: World, es: seq<Event>, mid: World, e: Event)
    requires Lists(cfg.list) && Run(cfg, w, es, mid) && CanHappen(cfg, mid, e)
    ensures Run(cfg, w, es + [e], Step(cfg, mid, e))
    decreases |es|
  {
    hide Step, CanHappen;
    if es == [] {
      assert es + [e] == [e] && [e][1..] == [];
    } else {
      assert (es + [e])[0] == es[0] && (es + [e])[1..] == es[1..] + [e];
      Extend(cfg, Step(cfg, w, es[0]), es[1..], mid, e);
    }
  }

  /** The request for a volume of a package. */
  function RequestFor(cfg: Config, t: nat, p: Package, n: string): Request
    requires n in p.volumes
  {
    Request(t, n, p.volumes[n], cfg.hash(p.volumes[n]), |p.volumes|)
  }

  /** The requests for the first k volumes of a list. */
  function RequestsFor(cfg: Config, t: nat, p: Package, ns: seq<string>, k: nat): set<Request>
    requires k <= |ns| && forall n | n in ns :: n in p.volumes
  {
    if k == 0 then {} else RequestsFor(cfg, t, p, ns, k - 1) + {RequestFor(cfg, t, p, ns[k - 1])}
  }

  lemma {:induction false} RequestsExact(cfg: Config, t: nat, p: Package, ns: seq<string>, k: nat)
    requires k <= |ns| && forall n | n in ns :: n in p.volumes
    ensures forall i | 0 <= i < k :: RequestFor(cfg, t, p, ns[i]) in RequestsFor(cfg, t, p, ns, k)
  {
    if k > 0 {
      RequestsExact(cfg, t, p, ns, k - 1);
    }
  }

  /** The client is about to send the volumes of p, in the order in which they are listed, to an
      empty directory. */
  ghost predicate Uploads(cfg: Config, w: World, t: nat, p: Package)
    requires Lists(cfg.list)
  {
    && w.client.token == Some(t) && w.server.token == Some(t) && w.client.package == Some(p)
    && w.client.uploading == Some(cfg.list(p.volumes)) && w.server.dir == map[]
  }

  /** After the volume at the client's position was sent and something was answered. */
  function Sent(cfg: Config, w: World, t: nat, p: Package, n: string, ok: bool): World
    requires n in p.volumes
  {
    w.(sent := w.sent + {RequestFor(cfg, t, p, n)},
       client := w.client.(at := w.client.at + 1, ok := ok, answered := if ok then w.client.answered + {n} else w.client.answered))
  }

  lemma CurrentIs(cfg: Config, w: World, t: nat, p: Package)
    requires Lists(cfg.list) && Uploads(cfg, w, t, p) && w.client.at < |p.volumes|
    ensures var ns := cfg.list(p.volumes);
            && w.client.at < |ns| && ns[w.client.at] in p.volumes && IsSending(w.client)
            && CurrentRequest(cfg, w.client) == RequestFor(cfg, t, p, ns[w.client.at])
  {
    ListedOnce(cfg, p.volumes);
    assert cfg.list(p.volumes)[w.client.at] in cfg.list(p.volumes);
  }

  /** A body that arrives corrupted is refused, and the client goes on. */
  lemma SkipOne(cfg: Config, es: seq<Event>, w: World, t: nat, p: Package) returns (es': seq<Event>)
    requires Sound(cfg) && Run(cfg, START, es, w) && Uploads(cfg, w, t, p) && w.client.at < |p.volumes|
    ensures var ns := cfg.list(p.volumes);
            w.client.at < |ns| && ns[w.client.at] in p.volumes && Run(cfg, START, es', Sent(cfg, w, t, p, ns[w.client.at], false))
  {
    hide Run, Packed;
    CurrentIs(cfg, w, t, p);
    var n := cfg.list(p.volumes)[w.client.at];
    var r := RequestFor(cfg, t, p, n);
    var body := r.body + [0];
    assert body != r.body;
    var w1 := w.(sent := w.sent + {r});
    assert Step(cfg, w, Send) == w1;
    Extend(cfg, START, es, w, Send);
    assert !Accepts(cfg, map[], r.(body := body));
    assert Step(cfg, w1, Deliver(r, body, true)) == Sent(cfg, w, t, p, n, false);
    Extend(cfg, START, es + [Send], w1, Deliver(r, body, true));
    es' := es + [Send] + [Deliver(r, body, true)];
  }

  /** The first k volumes are sent, and all of them refused. */
  lemma {:induction false} SkipTo(cfg: Config, es: seq<Event>, w: World, t: nat, p: Package, k: nat) returns (es': seq<Event>, x: World)
    requires Sound(cfg) && Run(cfg, START, es, w) && Uploads(cfg, w, t, p) && w.client.at == 0 && k <= |p.volumes|
    ensures var ns := cfg.list(p.volumes);
            && k <= |ns| && (forall n | n in ns :: n in p.volumes)
            && x == w.(sent := w.sent + RequestsFor(cfg, t, p, ns, k), client := w.client.(at := k, ok := k == 0 && w.client.ok))
            && Run(cfg, START, es', x)
  {
    hide Run;
    ListedOnce(cfg, p.volumes);
    if k == 0 {
      es', x := es, w;
    } else {
      es', x := SkipTo(cfg, es, w, t, p, k - 1);
      var ns := cfg.list(p.volumes);
      var y := Sent(cfg, x, t, p, ns[k - 1], false);
      es' := SkipOne(cfg, es', x, t, p);
      assert w.sent + RequestsFor(cfg, t, p, ns, k) == x.sent + {RequestFor(cfg, t, p, ns[k - 1])};
      x := y;
    }
  }

  /** What is left in a directory by requests that do not complete a package. */
  function AllStored(dir: Files, rs: seq<Request>): Files {
    if rs == [] then dir else AllStored(dir, rs[..|rs| - 1])[rs[|rs| - 1].name := rs[|rs| - 1].body]
  }

  ghost predicate Apart(dir: Files, rs: seq<Request>) {
    && (forall i | 0 <= i < |rs| :: rs[i].name !in dir)
    && (forall i, j | 0 <= i < j < |rs| :: rs[i].name != rs[j].name)
  }

  lemma {:induction false} AllStoredNames(dir: Files, rs: seq<Request>, n: string)
    ensures n in AllStored(dir, rs) <==> n in dir || exists i :: 0 <= i < |rs| && rs[i].name == n
  {
    if rs != [] {
      AllStoredNames(dir, rs[..|rs| - 1], n);
    }
  }

  lemma {:induction false} AllStoredValues(dir: Files, rs: seq<Request>, i: nat)
    requires i < |rs| && forall j | i < j < |rs| :: rs[i].name != rs[j].name
    ensures rs[i].name in AllStored(dir, rs) && AllStored(dir, rs)[rs[i].name] == rs[i].body
  {
    if i < |rs| - 1 {
      AllStoredValues(dir, rs[..|rs| - 1], i);
    }
  }

  lemma {:induction false} AllStoredSize(dir: Files, rs: seq<Request>)
    requires Apart(dir, rs)
    ensures |AllStored(dir, rs)| == |dir| + |rs|
  {
    if rs != [] {
      var front, r := rs[..|rs| - 1], rs[|rs| - 1];
      AllStoredSize(dir, front);
      AllStoredNames(dir, front, r.name);
      var d := AllStored(dir, front);
      assert d[r.name := r.body].Keys == d.Keys + {r.name};
    }
  }

  lemma AllStoredExact(dir: Files, rs: seq<Request>)
    requires Apart(dir, rs)
    ensures var d := AllStored(dir, rs);
            && |d| == |dir| + |rs|
            && (forall n :: n in d <==> n in dir || exists i :: 0 <= i < |rs| && rs[i].name == n)
            && (forall i | 0 <= i < |rs| :: d[rs[i].name] == rs[i].body)
  {
    hide AllStored;
    AllStoredSize(dir, rs);
    forall n ensures n in AllStored(dir, rs) <==> n in dir || exists i :: 0 <= i < |rs| && rs[i].name == n {
      AllStoredNames(dir, rs, n);
    }
    forall i | 0 <= i < |rs| ensures rs[i].name in AllStored(dir, rs) && AllStored(dir, rs)[rs[i].name] == rs[i].body {
      AllStoredValues(dir, rs, i);
    }
  }

  lemma OneMoreStored(dir: Files, rs: seq<Request>)
    requires rs != [] && Apart(dir, rs)
    ensures Apart(dir, rs[..|rs| - 1])
    ensures var before, r := AllStored(dir, rs[..|rs| - 1]), rs[|rs| - 1];
            AllStored(dir, rs) == before[r.name := r.body] && |before[r.name := r.body]| == |dir| + |rs|
  {
    AllStoredSize(dir, rs);
  }

  /** A request that can arrive, whole. */
  predicate Arrives(cfg: Config, w: World, r: Request) {
    r in w.sent && w.server.token == Some(r.token) && r.hashSum == cfg.hash(r.body)
  }

  /** Delayed requests arrive one after the other, none of them completing a package. */
  lemma {:induction false} Replay(cfg: Config, es: seq<Event>, w: World, rs: seq<Request>) returns (es': seq<Event>, x: World)
    requires Sound(cfg) && Run(cfg, START, es, w) && Apart(w.server.dir, rs)
    requires forall i | 0 <= i < |rs| :: Arrives(cfg, w, rs[i]) && rs[i].total != |w.server.dir| + i + 1
    ensures x == w.(server := w.server.(dir := AllStored(w.server.dir, rs))) && Run(cfg, START, es', x)
  {
    hide Run, Apart, Step;
    if rs == [] {
      es', x := es, w;
    } else {
      var front, r := rs[..|rs| - 1], rs[|rs| - 1];
      OneMoreStored(w.server.dir, rs);
      es', x := Replay(cfg, es, w, front);
      hide AllStored;
      ArriveStored(cfg, x, r);
      Extend(cfg, START, es', x, Deliver(r, r.body, false));
      es', x := es' + [Deliver(r, r.body, false)], x.(server := w.server.(dir := AllStored(w.server.dir, rs)));
    }
  }

  lemma ArriveStored(cfg: Config, w: World, r: Request)
    requires Lists(cfg.list) && Arrives(cfg, w, r) && |w.server.dir[r.name := r.body]| != r.total
    ensures CanHappen(cfg, w, Deliver(r, r.body, false))
    ensures Step(cfg, w, Deliver(r, r.body, false)) == w.(server := w.server.(dir := w.server.dir[r.name := r.body]))
  {
    hide Unpacking, Pushes, Answer;
    assert r.(body := r.body) == r;
  }

  /** A delayed request arrives that makes packageReady true. */
  lemma Fire(cfg: Config, es: seq<Event>, w: World, r: Request) returns (es': seq<Event>, x: World)
    requires Sound(cfg) && Run(cfg, START, es, w) && Arrives(cfg, w, r) && |w.server.dir[r.name := r.body]| == r.total
    ensures Run(cfg, START, es', x)
    ensures x == w.(server := x.server, unpacked := w.unpacked + [(r.token, w.server.dir[r.name := r.body])])
    ensures x.server.dir == map[] && x.server.token == w.server.token
  {
    hide Run, Unpacking, Pushes, Answer;
    assert r.(body := r.body) == r;
    Extend(cfg, START, es, w, Deliver(r, r.body, false));
    es', x := es + [Deliver(r, r.body, false)], Step(cfg, w, Deliver(r, r.body, false));
  }

  // One package.

  /** The upload of a first package has begun. */
  function Begun(cfg: Config, p: Package): World {
    World(Server(map[], Some(0), []), NO_CLIENT.(token := Some(0), package := Some(p), uploading := Some(cfg.list(p.volumes))), {}, 1, map[0 := [p]], [], 0)
  }

  lemma UploadBegins(cfg: Config, p: Package) returns (es: seq<Event>)
    requires Lists(cfg.list) && Packed(cfg, p)
    ensures Run(cfg, START, es, Begun(cfg, p))
  {
    hide Packed;
    var w1 := START.(server := Server(map[], Some(0), []), nextToken := 1, client := NO_CLIENT.(token := Some(0)));
    assert Step(cfg, START, Init(true)) == w1;
    Extend(cfg, START, [], START, Init(true));
    var w2 := w1.(client := NO_CLIENT.(token := Some(0), package := Some(p)), packages := map[0 := [p]]);
    var none: seq<Package> := [];
    assert none + [p] == [p];
    assert Step(cfg, w1, Create(p)) == w2;
    Extend(cfg, START, [] + [Init(true)], w1, Create(p));
    assert Step(cfg, w2, StartUpload) == Begun(cfg, p);
    Extend(cfg, START, [] + [Init(true)] + [Create(p)], w2, StartUpload);
    es := [] + [Init(true)] + [Create(p)] + [StartUpload];
  }

  /** All volumes are sent in turn; all but the last arrive corrupted, are refused and passed over,
      and the last one is answered with success. */
  lemma OnlyTheLastArrives(cfg: Config, p: Package) returns (es: seq<Event>, w: World)
    requires Sound(cfg) && Packed(cfg, p)
    ensures Run(cfg, START, es, w) && CanHappen(cfg, w, PackageSent)
    ensures w.client.package == Some(p) && w.client.token == w.server.token == Some(0) && w.packages == map[0 := [p]]
    ensures forall n | n in p.volumes :: RequestFor(cfg, 0, p, n) in w.sent
    ensures |p.volumes| == 1 ==> w.server.dir == map[]
    ensures |p.volumes| > 1 ==>
              && w.server.packages == [] && w.unpacked == []
              && var ns := cfg.list(p.volumes);
                 |ns| == |p.volumes| && ns[|ns| - 1] in p.volumes && w.server.dir == map[ns[|ns| - 1] := p.volumes[ns[|ns| - 1]]]
  {
    hide Packed, Run, Step, CanHappen;
    PackedIsNotEmpty(cfg, p);
    ListedOnce(cfg, p.volumes);
    var ns, k := cfg.list(p.volumes), |p.volumes| - 1;
    var w0 := Begun(cfg, p);
    es := UploadBegins(cfg, p);
    es, w := SkipTo(cfg, es, w0, 0, p, k);
    var r := RequestFor(cfg, 0, p, ns[k]);
    var w1 := w.(sent := w.sent + {r});
    LastSend(cfg, w, p);
    Extend(cfg, START, es, w, Send);
    var w2 := LastDelivered(cfg, w1, p);
    Extend(cfg, START, es + [Send], w1, Deliver(r, r.body, true));
    es, w := es + [Send] + [Deliver(r, r.body, true)], w2;
    RequestsExact(cfg, 0, p, ns, k);
    forall n | n in p.volumes ensures RequestFor(cfg, 0, p, n) in w.sent {
      var i :| 0 <= i < |ns| && ns[i] == n;
    }
  }

  lemma LastSend(cfg: Config, w: World, p: Package)
    requires Lists(cfg.list) && Uploads(cfg, w, 0, p) && w.client.at < |p.volumes|
    ensures var ns := cfg.list(p.volumes);
            && w.client.at < |ns| && ns[w.client.at] in p.volumes && CanHappen(cfg, w, Send)
            && Step(cfg, w, Send) == w.(sent := w.sent + {RequestFor(cfg, 0, p, ns[w.client.at])})
  {
    CurrentIs(cfg, w, 0, p);
  }

  lemma LastDelivered(cfg: Config, w: World, p: Package) returns (x: World)
    requires Sound(cfg) && Packed(cfg, p) && Uploads(cfg, w, 0, p) && w.client.at == |p.volumes| - 1
    requires var ns := cfg.list(p.volumes); w.client.at < |ns| && ns[w.client.at] in p.volumes && RequestFor(cfg, 0, p, ns[w.client.at]) in w.sent
    ensures var ns := cfg.list(p.volumes);
            var n := ns[w.client.at];
            var r := RequestFor(cfg, 0, p, n);
            && CanHappen(cfg, w, Deliver(r, r.body, true)) && x == Step(cfg, w, Deliver(r, r.body, true)) && CanHappen(cfg, x, PackageSent)
            && x == w.(server := x.server, client := x.client, unpacked := x.unpacked)
            && x.client.token == w.client.token && x.client.package == w.client.package && x.server.token == w.server.token
            && (|p.volumes| == 1 ==> x.server.dir == map[])
            && (|p.volumes| > 1 ==> x.server == w.server.(dir := map[n := p.volumes[n]]) && x.unpacked == w.unpacked)
  {
    hide Packed, Pushes, Run, Unpacking;
    CurrentIs(cfg, w, 0, p);
    ListedOnce(cfg, p.volumes);
    var n := cfg.list(p.volumes)[w.client.at];
    var r := RequestFor(cfg, 0, p, n);
    assert r.(body := r.body) == r;
    assert Stored(cfg, map[], r) == map[n := r.body] && |map[n := r.body]| == 1;
    if |p.volumes| == 1 {
      OneIsAll(p, n);
      UnpackRestores(cfg, p);
    }
    x := Step(cfg, w, Deliver(r, r.body, true));
  }

  lemma OneIsAll(p: Package, n: string)
    requires |p.volumes| == 1 && n in p.volumes
    ensures p.volumes == map[n := p.volumes[n]]
  {
    SubsetOfSameSize({n}, p.volumes.Keys);
  }

  /** The client deletes a package after the answer to its last volume: every run in which packages
      under one token are kin is sure to have delivered it by then if and only if it has a single
      volume. */
  lemma SentIsDeliveredExactly(cfg: Config, p: Package)
    requires Sound(cfg) && Packed(cfg, p)
    ensures |p.volumes| == 1 <==>
              forall es, w {:trigger Run(cfg, START, es, w)} |
                Run(cfg, START, es, w) && KinTokens(w.packages) && w.client.package == Some(p) && CanHappen(cfg, w, PackageSent) ::
                IsPushed(cfg, w.server, p)
  {
    hide Packed, Inv, Run, Step, KinTokens, IsPushed;
    PackedIsNotEmpty(cfg, p);
    if |p.volumes| == 1 {
      forall es, w | Run(cfg, START, es, w) && KinTokens(w.packages) && w.client.package == Some(p) && CanHappen(cfg, w, PackageSent)
        ensures IsPushed(cfg, w.server, p)
      {
        StartHolds(cfg);
        RunIsSafe(cfg, START, es, w);
        SingleSent(cfg, w, p);
      }
    } else {
      var es, w := OnlyTheLastArrives(cfg, p);
      OnePackage(p);
      assert !IsPushed(cfg, w.server, p) by { NoneIsPushed(cfg, w.server, p); }
    }
  }

  lemma SingleSent(cfg: Config, w: World, p: Package)
    requires Lists(cfg.list) && Inv(cfg, w) && w.client.package == Some(p) && |p.volumes| == 1 && CanHappen(cfg, w, PackageSent)
    ensures IsPushed(cfg, w.server, p)
  {
    hide Packed, IsPushed, IsMade, WasWhole, Genuine;
  }

  lemma OnePackage(p: Package)
    ensures KinTokens(map[0 := [p]])
  {
    KinToItself(p);
  }

  lemma NoneIsPushed(cfg: Config, s: Server, p: Package)
    requires s.packages == []
    ensures !IsPushed(cfg, s, p)
  {
  }

  // Two packages under one token.

  /** The volume names of a package of k volumes. */
  function NamesOf(k: nat): set<string> {
    if k == 1 then {"changesets.zip"} else set i | 0 <= i < k :: PieceName("changesets", i)
  }

  /** The number of volumes tells their names. */
  lemma PackedNames(cfg: Config, p: Package)
    requires Packed(cfg, p)
    ensures p.volumes.Keys == NamesOf(|p.volumes|)
  {
    hide IsListingOf, Written, Saved, CeilOfQuotient;
    var children: seq<Child>, limit: int :|
      && IsListingOf(children, Saved(cfg.json, p.units))
      && p.volumes == FilesAt(VolumesOf("changesets", ArchiveOf(cfg, children), limit));
    var packet := ArchiveOf(cfg, children);
    var vs := VolumesOf("changesets", packet, limit);
    VolumeNamesDistinct("changesets", packet, limit);
    WrittenExact(vs);
    VolumeNames("changesets", packet, limit);
    if |vs| == 1 {
      assert vs[0].name == "changesets.zip";
    }
    assert forall n :: n in p.volumes <==> n in NamesOf(|p.volumes|);
  }

  lemma VolumeNames(name: string, packet: Bytes, limit: int)
    ensures var vs := VolumesOf(name, packet, limit);
            if |vs| == 1 then vs[0].name == name + ".zip" else forall i | 0 <= i < |vs| :: vs[i].name == PieceName(name, i)
  {
    if 0 < limit < |packet| {
      MoreThanOne(packet, limit);
    }
  }

  lemma MoreThanOne(packet: Bytes, limit: nat)
    requires 0 < limit < |packet|
    ensures |Pieces(packet, limit)| > 1
  {
    PiecesExact(packet, limit);
    FewPieces(Pieces(packet, limit));
  }

  lemma FewPieces(ps: seq<Bytes>)
    ensures |ps| == 0 ==> Concat(ps) == []
    ensures |ps| == 1 ==> Concat(ps) == ps[0]
  {
    if |ps| == 1 {
      assert ps[1..] == [];
    }
  }

  lemma ZipIsNoPiece(i: nat)
    ensures PieceName("changesets", i) != "changesets.zip"
  {
    NumeralSuffix("changesets", i);
    assert PieceName("changesets", i)[11] == 'v';
    assert "changesets.zip"[11] == 'z';
  }

  /** After both packages were sent under token 0: nothing is in the directory, and every request
      of either may still arrive. */
  ghost predicate BothSent(cfg: Config, w: World, p: Package, q: Package) {
    && w.server.dir == map[] && w.server.token == Some(0) && w.packages == map[0 := [p, q]]
    && (forall n | n in p.volumes :: RequestFor(cfg, 0, p, n) in w.sent)
    && (forall n | n in q.volumes :: RequestFor(cfg, 0, q, n) in w.sent)
  }

  lemma SendBoth(cfg: Config, p: Package, q: Package) returns (es: seq<Event>, w: World)
    requires Sound(cfg) && Packed(cfg, p) && Packed(cfg, q)
    ensures Run(cfg, START, es, w) && BothSent(cfg, w, p, q)
  {
    hide Packed, Run, Step, CanHappen, RequestsFor;
    PackedIsNotEmpty(cfg, p);
    var es1, w1 := OnlyTheLastArrives(cfg, p);
    es, w := es1, w1;
    if |p.volumes| > 1 {
      es, w := CompleteLast(cfg, es1, w1, p);
      StillSent(cfg, w1, w);
    }
    es, w := NextPackage(cfg, es, w, p, q);
    es, w := SkipTo(cfg, es, w, 0, q, |q.volumes|);
    var ns := cfg.list(q.volumes);
    RequestsExact(cfg, 0, q, ns, |q.volumes|);
    ListedOnce(cfg, q.volumes);
    forall n | n in q.volumes ensures RequestFor(cfg, 0, q, n) in w.sent {
      var i :| 0 <= i < |ns| && ns[i] == n;
    }
  }

  lemma StillSent(cfg: Config, w: World, x: World)
    requires CanHappen(cfg, w, PackageSent) && x.client == w.client
    ensures CanHappen(cfg, x, PackageSent)
  {
  }

  /** The delayed requests for the other volumes arrive and complete the package. */
  lemma CompleteLast(cfg: Config, es: seq<Event>, w: World, p: Package) returns (es': seq<Event>, x: World)
    requires Sound(cfg) && Run(cfg, START, es, w) && |p.volumes| > 1 && w.server.token == Some(0)
    requires forall n | n in p.volumes :: RequestFor(cfg, 0, p, n) in w.sent
    requires var ns := cfg.list(p.volumes);
             |ns| == |p.volumes| && ns[|ns| - 1] in p.volumes && w.server.dir == map[ns[|ns| - 1] := p.volumes[ns[|ns| - 1]]]
    ensures Run(cfg, START, es', x) && x == w.(server := x.server, unpacked := x.unpacked) && x.server.dir == map[] && x.server.token == Some(0)
  {
    hide Run, Step;
    ListedOnce(cfg, p.volumes);
    var ns := cfg.list(p.volumes);
    var m := |ns|;
    var rs := RequestList(cfg, p, ns[..m - 2]);
    assert |w.server.dir| == 1;
    es', x := Replay(cfg, es, w, rs);
    AllStoredExact(w.server.dir, rs);
    assert ns[m - 2] in p.volumes && ns[m - 2] !in x.server.dir;
    var r := RequestFor(cfg, 0, p, ns[m - 2]);
    assert x.server.dir[r.name := r.body].Keys == x.server.dir.Keys + {r.name};
    es', x := Fire(cfg, es', x, r);
  }

  /** The requests for a list of names. */
  function RequestList(cfg: Config, p: Package, ns: seq<string>): (rs: seq<Request>)
    requires forall n | n in ns :: n in p.volumes
    ensures |rs| == |ns| && forall i | 0 <= i < |ns| :: ns[i] in p.volumes && rs[i] == RequestFor(cfg, 0, p, ns[i])
  {
    seq(|ns|, i requires 0 <= i < |ns| => RequestFor(cfg, 0, p, ns[i]))
  }

  /** The package is deleted and the next one made, under the same token. */
  lemma NextPackage(cfg: Config, es: seq<Event>, w: World, p: Package, q: Package) returns (es': seq<Event>, x: World)
    requires Lists(cfg.list) && Packed(cfg, q) && Run(cfg, START, es, w) && CanHappen(cfg, w, PackageSent)
    requires w.server.dir == map[] && w.client.token == w.server.token == Some(0) && w.packages == map[0 := [p]]
    ensures Run(cfg, START, es', x) && Uploads(cfg, x, 0, q) && x.client.at == 0
    ensures x.sent == w.sent && x.packages == map[0 := [p, q]]
  {
    hide Run, Packed;
    Extend(cfg, START, es, w, PackageSent);
    var w1 := Step(cfg, w, PackageSent);
    Extend(cfg, START, es + [PackageSent], w1, Create(q));
    var w2 := Step(cfg, w1, Create(q));
    assert [p] + [q] == [p, q] && WithPackage(map[0 := [p]], 0, q) == map[0 := [p, q]];
    Extend(cfg, START, es + [PackageSent] + [Create(q)], w2, StartUpload);
    es', x := es + [PackageSent] + [Create(q)] + [StartUpload], Step(cfg, w2, StartUpload);
  }

  /** The last thing unpacked. */
  ghost predicate UnpackedLast(w: World, dir: Files) {
    w.unpacked != [] && w.unpacked[|w.unpacked| - 1] == (0, dir)
  }

  /** The requests for all volumes of x but the first listed, and for one of y. */
  lemma ForeignRequests(cfg: Config, x: Package, y: Package, v: string) returns (rs: seq<Request>, o: string)
    requires Lists(cfg.list) && v in y.volumes && v !in x.volumes && |x.volumes| > 1
    ensures |rs| == |x.volumes| && Apart(map[], rs) && o in x.volumes
    ensures forall i | 0 <= i < |rs| - 1 :: rs[i].name in x.volumes && rs[i] == RequestFor(cfg, 0, x, rs[i].name) && rs[i].name != o
    ensures rs[|rs| - 1] == RequestFor(cfg, 0, y, v)
  {
    ListedOnce(cfg, x.volumes);
    var ns := cfg.list(x.volumes);
    o := ns[0];
    assert forall n | n in ns[1..] :: n in ns;
    rs := RequestList(cfg, x, ns[1..]) + [RequestFor(cfg, 0, y, v)];
    forall i | 0 <= i < |ns| - 1 ensures ns[i + 1] in x.volumes && rs[i] == RequestFor(cfg, 0, x, ns[i + 1]) && ns[i + 1] != o {
      assert ns[1..][i] == ns[i + 1];
    }
    forall i, j | 0 <= i < j < |rs| ensures rs[i].name != rs[j].name {
      assert rs[i].name == ns[i + 1];
    }
  }

  /** A volume of y takes the place of one of x: packageReady counts volumes and does not look at
      their names. */
  lemma ForeignVolume(cfg: Config, es: seq<Event>, w: World, x: Package, y: Package, v: string)
    returns (es': seq<Event>, w': World, dir: Files)
    requires Sound(cfg) && Run(cfg, START, es, w) && w.server.dir == map[] && w.server.token == Some(0)
    requires forall n | n in x.volumes :: RequestFor(cfg, 0, x, n) in w.sent
    requires v in y.volumes && v !in x.volumes && RequestFor(cfg, 0, y, v) in w.sent && |x.volumes| > 1 && |x.volumes| != |y.volumes|
    ensures Run(cfg, START, es', w') && w'.packages == w.packages && UnpackedLast(w', dir)
    ensures |dir| == |x.volumes| && exists n :: n in x.volumes && n !in dir
  {
    hide Run, Step, AllStored, Apart;
    var rs, o := ForeignRequests(cfg, x, y, v);
    var mid;
    es', mid := Replay(cfg, es, w, rs);
    AllStoredExact(map[], rs);
    dir := mid.server.dir;
    assert o !in dir;
    assert dir[rs[0].name := rs[0].body] == dir;
    es', w' := Fire(cfg, es', mid, rs[0]);
  }

  function Without(ns: seq<string>, a: string): (r: seq<string>)
    ensures forall n :: n in r <==> n in ns && n != a
  {
    if ns == [] then [] else Without(ns[..|ns| - 1], a) + if ns[|ns| - 1] == a then [] else [ns[|ns| - 1]]
  }

  lemma {:induction false} WithoutDistinct(ns: seq<string>, a: string)
    requires Listing.Distinct(ns)
    ensures Listing.Distinct(Without(ns, a)) && |Without(ns, a)| == if a in ns then |ns| - 1 else |ns|
  {
    if ns != [] {
      var front, last := ns[..|ns| - 1], ns[|ns| - 1];
      WithoutDistinct(front, a);
      assert last !in front;
    }
  }

  /** With the same names, one volume of p among those of q. */
  lemma MixedVolumes(cfg: Config, es: seq<Event>, w: World, p: Package, q: Package, a: string, b: string)
    returns (es': seq<Event>, w': World, dir: Files)
    requires Sound(cfg) && Run(cfg, START, es, w) && BothSent(cfg, w, p, q) && p.volumes.Keys == q.volumes.Keys
    requires a in p.volumes && b in p.volumes && a != b && p.volumes[a] != q.volumes[a] && p.volumes[b] != q.volumes[b]
    ensures Run(cfg, START, es', w') && w'.packages == w.packages && UnpackedLast(w', dir)
    ensures a in dir && b in dir && dir[a] == p.volumes[a] && dir[b] == q.volumes[b]
  {
    hide Run, Step, AllStored, Apart, Sound;
    assert Lists(cfg.list) by { SoundLists(cfg); }
    SameSize(p, q);
    var rs := OtherRequests(cfg, q, a);
    var mid;
    es', mid := Replay(cfg, es, w, rs);
    var r := RequestFor(cfg, 0, p, a);
    var k :| 0 <= k < |rs| && rs[k].name == b;
    OneMore(rs, a, r.body, k);
    dir := mid.server.dir[a := r.body];
    es', w' := Fire(cfg, es', mid, r);
  }

  lemma OneMore(rs: seq<Request>, a: string, body: Bytes, k: nat)
    requires Apart(map[], rs) && k < |rs| && forall i | 0 <= i < |rs| :: rs[i].name != a
    ensures var dir := AllStored(map[], rs)[a := body]; |dir| == |rs| + 1 && rs[k].name in dir && dir[rs[k].name] == rs[k].body
  {
    hide AllStored;
    AllStoredExact(map[], rs);
    var before := AllStored(map[], rs);
    assert before[a := body].Keys == before.Keys + {a};
  }

  /** The requests for all volumes but one. */
  lemma OtherRequests(cfg: Config, q: Package, a: string) returns (rs: seq<Request>)
    requires Lists(cfg.list) && a in q.volumes
    ensures |rs| == |q.volumes| - 1 && Apart(map[], rs)
    ensures forall i | 0 <= i < |rs| :: rs[i].name in q.volumes && rs[i] == RequestFor(cfg, 0, q, rs[i].name) && rs[i].name != a
    ensures forall b | b in q.volumes && b != a :: exists k :: 0 <= k < |rs| && rs[k].name == b
  {
    ListedOnce(cfg, q.volumes);
    var ns := cfg.list(q.volumes);
    WithoutDistinct(ns, a);
    var rest := Without(ns, a);
    rs := RequestList(cfg, q, rest);
    forall i | 0 <= i < |rs| ensures rs[i].name in q.volumes && rs[i].name != a {
      assert rest[i] in rest;
    }
    forall b | b in q.volumes && b != a ensures exists k :: 0 <= k < |rs| && rs[k].name == b {
      var k :| 0 <= k < |rest| && rest[k] == b;
      assert rs[k].name == b;
    }
  }

  /** Two packages that are not kin under one token: a run in which unPack is started on a directory
      that is neither, and does not hold all of the second, or, where that is a single volume, all
      of the first. */
  lemma TokenReuseIsUnsafe(cfg: Config, p: Package, q: Package) returns (es: seq<Event>, w: World, dir: Files)
    requires Sound(cfg) && Packed(cfg, p) && Packed(cfg, q) && !Kin(p, q)
    ensures Run(cfg, START, es, w) && w.packages == map[0 := [p, q]] && UnpackedLast(w, dir)
    ensures dir != p.volumes && dir != q.volumes
    ensures var x := if |q.volumes| > 1 then q else p; exists n :: n in x.volumes && !(n in dir && dir[n] == x.volumes[n])
  {
    hide Packed, Run, NamesOf;
    PackedIsNotEmpty(cfg, p);
    PackedIsNotEmpty(cfg, q);
    PackedNames(cfg, p);
    PackedNames(cfg, q);
    es, w := SendBoth(cfg, p, q);
    if p.volumes.Keys == q.volumes.Keys {
      var a, b :| a in p.volumes && b in p.volumes && p.volumes[a] != q.volumes[a] && p.volumes[b] != q.volumes[b] && a != b;
      es, w, dir := MixedVolumes(cfg, es, w, p, q, a, b);
      TwoNames(q, a, b);
    } else if |q.volumes| > 1 && exists v :: v in p.volumes && v !in q.volumes {
      var v :| v in p.volumes && v !in q.volumes;
      es, w, dir := ForeignVolume(cfg, es, w, q, p, v);
    } else {
      SingleIsForeign(p, q);
      var v :| v in q.volumes && v !in p.volumes;
      es, w, dir := ForeignVolume(cfg, es, w, p, q, v);
      if |q.volumes| > 1 {
        FewerVolumes(p, q, dir);
      }
    }
  }

  lemma TwoNames(p: Package, a: string, b: string)
    requires a in p.volumes && b in p.volumes && a != b
    ensures |p.volumes| > 1
  {
    if |p.volumes| == 1 {
      OneIsAll(p, a);
    }
  }

  /** A package with fewer volumes than p of the same kind, or p against a single volume. */
  lemma SingleIsForeign(p: Package, q: Package)
    requires p.volumes.Keys == NamesOf(|p.volumes|) && q.volumes.Keys == NamesOf(|q.volumes|) && p.volumes != map[] && q.volumes != map[]
    requires p.volumes.Keys != q.volumes.Keys && (|q.volumes| > 1 ==> forall v | v in p.volumes :: v in q.volumes)
    ensures |p.volumes| > 1 && exists v :: v in q.volumes && v !in p.volumes
  {
    hide NamesOf;
    ZipIsSingle(|p.volumes|);
    ZipIsSingle(|q.volumes|);
    if |q.volumes| > 1 && forall v | v in q.volumes :: v in p.volumes {
      SameKeys(p, q);
      assert false;
    }
  }

  lemma SameKeys(p: Package, q: Package)
    requires (forall v | v in p.volumes :: v in q.volumes) && forall v | v in q.volumes :: v in p.volumes
    ensures p.volumes.Keys == q.volumes.Keys
  {
  }

  lemma ZipIsSingle(k: nat)
    ensures "changesets.zip" in NamesOf(k) <==> k == 1
    ensures k == 1 ==> NamesOf(k) == {"changesets.zip"}
  {
    forall i: nat ensures PieceName("changesets", i) != "changesets.zip" {
      ZipIsNoPiece(i);
    }
  }

  lemma FewerVolumes(p: Package, q: Package, dir: Files)
    requires (forall v | v in p.volumes :: v in q.volumes) && |dir| == |p.volumes| != |q.volumes|
    ensures exists n :: n in q.volumes && !(n in dir && dir[n] == q.volumes[n])
  {
    if forall n | n in q.volumes :: n in dir {
      Fewer(q.volumes.Keys, dir.Keys);
      Fewer(p.volumes.Keys, q.volumes.Keys);
      assert false;
    }
  }

  lemma {:induction false} Fewer(a: set<string>, b: set<string>)
    requires a <= b
    ensures |a| <= |b|
  {
    assert |b - a| == |b| - |a|;
  }

  /** Whatever the run, as long as it makes no other packages: unPack is started on whole packages
      only, and the directory is part of one. */
  ghost predicate CanShareToken(cfg: Config, p: Package, q: Package)
    requires Lists(cfg.list)
  {
    forall es, w {:trigger Run(cfg, START, es, w)} | Run(cfg, START, es, w) && OnlyThese(w.packages, p, q) ::
      UnpackedIsWhole(cfg, w) && DirIsGenuine(w)
  }

  ghost predicate OnlyThese(h: History, p: Package, q: Package) {
    forall t, x | Made(h, t, x) :: x == p || x == q
  }

  /** Two packages can share a token if and only if they are kin: the same number of volumes, of
      which at most one differs. Two packages of a single volume are. */
  lemma ShareTokenExactly(cfg: Config, p: Package, q: Package)
    requires Sound(cfg) && Packed(cfg, p) && Packed(cfg, q)
    ensures CanShareToken(cfg, p, q) <==> Kin(p, q)
    ensures |p.volumes| == 1 && |q.volumes| == 1 ==> Kin(p, q)
  {
    hide Packed, Run, UnpackedIsWhole, DirIsGenuine, Sound, Kin;
    assert Lists(cfg.list) by { SoundLists(cfg); }
    if Kin(p, q) {
      forall es, w | Run(cfg, START, es, w) && OnlyThese(w.packages, p, q) ensures UnpackedIsWhole(cfg, w) && DirIsGenuine(w) {
        TwoAreKin(w.packages, p, q);
        UploadIsSafe(cfg, es, w);
      }
    } else {
      var es, w, dir := TokenReuseIsUnsafe(cfg, p, q);
      assert !UnpackedIsWhole(cfg, w) by { NotWhole(cfg, w, p, q, dir); }
      assert OnlyThese(w.packages, p, q);
    }
    if |p.volumes| == 1 && |q.volumes| == 1 {
      SinglesAreKin(cfg, p, q);
    }
  }

  lemma SoundLists(cfg: Config)
    requires Sound(cfg)
    ensures Lists(cfg.list)
  {
  }

  lemma TwoAreKin(h: History, p: Package, q: Package)
    requires OnlyThese(h, p, q) && Kin(p, q)
    ensures KinTokens(h)
  {
    KinToItself(p);
    KinToItself(q);
    assert Kin(q, p);
  }

  lemma NotWhole(cfg: Config, w: World, p: Package, q: Package, dir: Files)
    requires w.packages == map[0 := [p, q]] && UnpackedLast(w, dir) && dir != p.volumes && dir != q.volumes
    ensures !UnpackedIsWhole(cfg, w)
  {
    hide IsPushed;
    assert !WasWhole(cfg, w.packages, w.server, w.unpacked[|w.unpacked| - 1]);
  }

  lemma SinglesAreKin(cfg: Config, p: Package, q: Package)
    requires Packed(cfg, p) && Packed(cfg, q) && |p.volumes| == 1 && |q.volumes| == 1
    ensures Kin(p, q)
  {
    hide Packed;
    PackedNames(cfg, p);
    PackedNames(cfg, q);
  }

  // A package whose cutting was stopped.

  /** The client counts what is left of the volumes and sends their number as the total; with all of
      them there the server joins a prefix of the archive, the whole of it if and only if no
      volume is missing and none is cut short. */
  lemma StoppedPackageIsJoined(cfg: Config, packet: Bytes, limit: int, m: nat, left: seq<Volume>)
    requires Sound(cfg) && Stopped("changesets", packet, limit, m, left)
    ensures |VolumesToSend(cfg, FilesAt(left), None)| == |FilesAt(left)| == |left|
    ensures var read := Concat(Contents(left));
            && Joined(cfg.codec, map[], VolumesIn(cfg.list(FilesAt(left)), FilesAt(left))) == Some(Unpacked(map[], cfg.codec.unzip(read)))
            && read <= packet && (read == packet <==> left == VolumesOf("changesets", packet, limit))
  {
    hide VolumesOf, Written, Concat, InOrder, Unpacked;
    StoppedNames(packet, limit, m, left);
    WrittenExact(left);
    ListedOnce(cfg, FilesAt(left));
    ListedVolumes(cfg, left);
    StoppedSplit("changesets", packet, limit, cfg.codec, m, left, VolumesIn(cfg.list(FilesAt(left)), FilesAt(left)));
  }

  lemma StoppedNames(packet: Bytes, limit: int, m: nat, left: seq<Volume>)
    requires Stopped("changesets", packet, limit, m, left)
    ensures forall i, j | 0 <= i < j < |left| :: left[i].name != left[j].name
  {
    hide VolumesOf;
    VolumeNamesDistinct("changesets", packet, limit);
    var vs := VolumesOf("changesets", packet, limit);
    assert forall i | 0 <= i < |left| :: left[i].name == vs[i].name;
  }
}
