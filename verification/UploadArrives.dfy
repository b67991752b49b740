/** What the server answers to requests that arrive, and what an interrupted
    upload comes to in a later session. */
module UploadArrives {
  import opened Wrappers
  import opened ZipVolumes
  import opened UploadServer
  import opened UploadRuns
  import opened UploadFaults
  import Listing

  /** A request is refused exactly if its token is not the current one, or neither the body that came
      nor the volume that is there has the hash it announces. Then nothing changes. */
  lemma RefusedExactly(cfg: Config, s: Server, r: Request)
    requires Lists(cfg.list)
    ensures var (x, reply) := AfterUpload(cfg, s, r);
            && (reply == NotAcceptable <==>
                  s.token != Some(r.token) || (cfg.hash(r.body) != r.hashSum && (r.name in s.dir ==> cfg.hash(s.dir[r.name]) != r.hashSum)))
            && (reply == NotAcceptable ==> x == s)
            && x.token == s.token
  {
    hide Unpacking, Stored, Pushes;
  }

  /** A request that completes the directory empties it, and is answered with success exactly if the
      directory can be unpacked; otherwise nothing is pushed. */
  lemma CompletesExactly(cfg: Config, s: Server, r: Request)
    requires Lists(cfg.list) && AfterUpload(cfg, s, r).1 != NotAcceptable && |Stored(cfg, s.dir, r)| == r.total
    ensures var (x, reply) := AfterUpload(cfg, s, r);
            var units := Unpacking(cfg, Stored(cfg, s.dir, r));
            && x.dir == map[]
            && (reply == OK <==> units.Some?)
            && if reply == OK then |x.packages| == |s.packages| + 1 && x.packages[..|s.packages|] == s.packages
                                   && PushedFor(cfg.users, units.value, x.packages[|s.packages|])
               else x.packages == s.packages
  {
    hide Unpacking, Stored, Accepts, Pushes, PushedFor;
    var units := Unpacking(cfg, Stored(cfg, s.dir, r));
    if units.Some? {
      PushesExactly(cfg.users, units.value);
    }
  }

  /** A volume that was accepted, and did not complete the package, is accepted again, whatever body
      comes with it, and changes nothing. */
  lemma RedeliveryIsHarmless(cfg: Config, s: Server, r: Request, body: Bytes)
    requires Sound(cfg) && AfterUpload(cfg, s, r).1 == OK && AfterUpload(cfg, s, r).0.dir != map[]
    ensures var x := AfterUpload(cfg, s, r).0; AfterUpload(cfg, x, r.(body := body)) == (x, OK)
  {
    hide Unpacking, Pushes;
    assert NoCollisions(cfg.hash) by { SoundHash(cfg); }
    hide Sound;
    var x := AfterUpload(cfg, s, r).0;
    assert x.dir == Stored(cfg, s.dir, r) && |x.dir| != r.total;
    assert cfg.hash(x.dir[r.name]) == r.hashSum;
    var q := r.(body := body);
    assert Stored(cfg, x.dir, q) == x.dir by {
      if cfg.hash(body) == r.hashSum {
        assert body == x.dir[r.name];
      }
    }
  }

  /** The requests one after the other; ok tells whether all were answered with success. */
  ghost function AfterAll(cfg: Config, s: Server, rs: seq<Request>): (Server, bool)
    requires Lists(cfg.list)
  {
    if rs == [] then (s, true)
    else
      var (x, ok) := AfterAll(cfg, s, rs[..|rs| - 1]);
      var (y, reply) := AfterUpload(cfg, x, rs[|rs| - 1]);
      (y, ok && reply == OK)
  }

  function InTurn(cfg: Config, t: nat, p: Package, ns: seq<string>): (r: seq<Request>)
    requires forall n | n in ns :: n in p.volumes
    ensures |r| == |ns| && forall i | 0 <= i < |ns| :: r[i] == RequestFor(cfg, t, p, ns[i])
  {
    seq(|ns|, i requires 0 <= i < |ns| => RequestFor(cfg, t, p, ns[i]))
  }

  /** The volumes of these names. */
  function Part(p: Package, ns: seq<string>): Files {
    map n | n in ns && n in p.volumes :: p.volumes[n]
  }

  lemma PartSize(p: Package, ns: seq<string>)
    requires Listing.Distinct(ns) && forall n | n in ns :: n in p.volumes
    ensures |Part(p, ns)| == |ns|
  {
    Listing.DistinctSize(ns, Part(p, ns).Keys);
    assert |Part(p, ns).Keys| == |Part(p, ns)|;
  }

  lemma {:induction false} PartArrives(cfg: Config, s: Server, t: nat, p: Package, ns: seq<string>)
    requires Lists(cfg.list) && s.token == Some(t) && s.dir == map[]
    requires Listing.Distinct(ns) && (forall n | n in ns :: n in p.volumes) && |ns| < |p.volumes|
    ensures AfterAll(cfg, s, InTurn(cfg, t, p, ns)) == (s.(dir := Part(p, ns)), true)
  {
    hide AfterUpload, AfterAll;
    if ns == [] {
      NothingArrives(cfg, s, t, p);
    } else {
      var front, n := ns[..|ns| - 1], ns[|ns| - 1];
      FrontOf(p, ns);
      PartArrives(cfg, s, t, p, front);
      AllButLast(cfg, s, t, p, ns);
      OneArrives(cfg, s.(dir := Part(p, front)), RequestFor(cfg, t, p, n));
    }
  }

  lemma NothingArrives(cfg: Config, s: Server, t: nat, p: Package)
    requires Lists(cfg.list) && s.dir == map[]
    ensures AfterAll(cfg, s, InTurn(cfg, t, p, [])) == (s.(dir := Part(p, [])), true)
  {
    assert Part(p, []) == s.dir;
  }

  lemma FrontOf(p: Package, ns: seq<string>)
    requires ns != [] && Listing.Distinct(ns) && (forall n | n in ns :: n in p.volumes)
    ensures var front, n := ns[..|ns| - 1], ns[|ns| - 1];
            && Listing.Distinct(front) && (forall m | m in front :: m in p.volumes)
            && n in p.volumes && Part(p, front)[n := p.volumes[n]] == Part(p, ns) && |Part(p, ns)| == |ns|
  {
    var front, n := ns[..|ns| - 1], ns[|ns| - 1];
    PartSize(p, ns);
    assert ns == front + [n] && n in ns;
    forall m | m in front ensures m in p.volumes {
      assert m in ns;
    }
    assert Part(p, front)[n := p.volumes[n]] == Part(p, ns);
  }

  lemma OneArrives(cfg: Config, s: Server, r: Request)
    requires Lists(cfg.list) && s.token == Some(r.token) && cfg.hash(r.body) == r.hashSum && |s.dir[r.name := r.body]| != r.total
    ensures AfterUpload(cfg, s, r) == (s.(dir := s.dir[r.name := r.body]), OK)
  {
    hide Unpacking, Pushes;
  }

  /** The volumes of a package, in whatever order they arrive: all are answered with success, and the
      last one brings the changes to their receivers and leaves the directory empty. */
  lemma ArrivesInAnyOrder(cfg: Config, s: Server, t: nat, p: Package, ns: seq<string>)
    requires Sound(cfg) && Packed(cfg, p) && s.token == Some(t) && s.dir == map[] && IsWhole(ns, p)
    ensures var (x, ok) := AfterAll(cfg, s, InTurn(cfg, t, p, ns));
            && ok && x.dir == map[] && x.token == s.token
            && |x.packages| == |s.packages| + 1 && x.packages[..|s.packages|] == s.packages
            && PushedFor(cfg.users, p.units, x.packages[|s.packages|])
  {
    hide Unpacking, Pushes, AfterUpload, Packed, PushedFor, Sound, Listing.Distinct, AfterAll;
    assert Lists(cfg.list) by { SoundLists(cfg); }
    PackedIsNotEmpty(cfg, p);
    NamesOfWhole(p, ns);
    var front, n := ns[..|ns| - 1], ns[|ns| - 1];
    PartArrives(cfg, s, t, p, front);
    AllButLast(cfg, s, t, p, ns);
    LastArrives(cfg, s.(dir := Part(p, front)), p, RequestFor(cfg, t, p, n));
    PushesExactly(cfg.users, p.units);
  }

  lemma SoundLists(cfg: Config)
    requires Sound(cfg)
    ensures Lists(cfg.list)
  {
  }

  lemma NamesOfWhole(p: Package, ns: seq<string>)
    requires IsWhole(ns, p) && p.volumes != map[]
    ensures |ns| == |p.volumes| > 0 && forall n | n in ns :: n in p.volumes
    ensures var front, n := ns[..|ns| - 1], ns[|ns| - 1];
            && Listing.Distinct(front) && (forall m | m in front :: m in p.volumes)
            && n in p.volumes && Part(p, front)[n := p.volumes[n]] == p.volumes
  {
    Listing.DistinctSize(ns, p.volumes.Keys);
    assert |p.volumes.Keys| == |p.volumes|;
    var front, n := ns[..|ns| - 1], ns[|ns| - 1];
    assert ns == front + [n] && n in ns;
    forall m | m in front ensures m in p.volumes {
      assert m in ns;
    }
    assert Part(p, front)[n := p.volumes[n]] == p.volumes;
  }

  lemma AllButLast(cfg: Config, s: Server, t: nat, p: Package, ns: seq<string>)
    requires Lists(cfg.list) && ns != [] && (forall n | n in ns :: n in p.volumes) && forall n | n in ns[..|ns| - 1] :: n in p.volumes
    ensures AfterAll(cfg, s, InTurn(cfg, t, p, ns)) ==
              var (x, ok) := AfterAll(cfg, s, InTurn(cfg, t, p, ns[..|ns| - 1]));
              var (y, reply) := AfterUpload(cfg, x, RequestFor(cfg, t, p, ns[|ns| - 1]));
              (y, ok && reply == OK)
  {
    hide AfterUpload;
    var rs := InTurn(cfg, t, p, ns);
    assert InTurn(cfg, t, p, ns[..|ns| - 1]) == rs[..|rs| - 1];
  }

  lemma LastArrives(cfg: Config, s: Server, p: Package, r: Request)
    requires Sound(cfg) && Packed(cfg, p) && s.token == Some(r.token) && cfg.hash(r.body) == r.hashSum
    requires s.dir[r.name := r.body] == p.volumes && r.total == |p.volumes|
    ensures AfterUpload(cfg, s, r) == (s.(dir := map[], packages := s.packages + [Pushes(cfg.users, p.units)]), OK)
  {
    hide Unpacking, Pushes, Packed, Sound;
    UnpackRestores(cfg, p);
  }

  // From one session to the next.

  /** A session begins exactly if the server's directory is empty and the answer arrives. */
  lemma SessionBeginsExactly(cfg: Config, w: World, answer: bool)
    requires Lists(cfg.list) && CanHappen(cfg, w, Init(answer))
    ensures var x := Step(cfg, w, Init(answer));
            && (x.client.token.Some? <==> answer && w.server.dir == map[])
            && (x.client.token.Some? ==> x.client.token == x.server.token == Some(w.nextToken) && x.client.package == w.client.package && x.client.rest == w.client.rest)
            && (w.server.dir != map[] ==> x.server == w.server)
  {
    hide Packed, AfterUpload;
  }

  /** An upload that is interrupted goes on in the next session, if the directories are not cleaned and
      the server has none of its volumes: the same package, the same volumes in the same order,
      from the first, under a new token. */
  lemma GoesOnLater(cfg: Config, w: World) returns (x: World)
    requires Lists(cfg.list) && Inv(cfg, w) && w.client.uploading.Some? && w.server.dir == map[]
    ensures Run(cfg, w, [Interrupt, Complete(false), Init(true), StartUpload], x)
    ensures x.client.package == w.client.package && x.client.uploading == w.client.uploading && x.client.at == 0
    ensures x.client.token == x.server.token == Some(w.nextToken) && w.server.token != x.server.token
  {
    hide Packed, IsWhole, Run, Step, Inv, AfterUpload, ClientInv, Tokens;
    UploadFacts(cfg, w);
    var a := AfterInterrupt(cfg, w);
    var b := AfterComplete(cfg, a);
    var c := AfterSession(cfg, b);
    hide OutgoingVolumes;
    x := Step(cfg, c, StartUpload);
    Resumes(cfg, w, c);
    FourSteps(cfg, w, Interrupt, a, Complete(false), b, Init(true), c, StartUpload, x);
  }

  lemma UploadFacts(cfg: Config, w: World)
    requires Inv(cfg, w) && w.client.uploading.Some?
    ensures w.client.token.Some? && w.client.package.Some? && Packed(cfg, w.client.package.value)
    ensures IsWhole(w.client.uploading.value, w.client.package.value)
    ensures w.server.token.Some? ==> w.server.token.value < w.nextToken
  {
    hide Packed, IsWhole, AllPacked, SentIsGenuine, DirIsGenuine, Unfinished, UnpackedIsWhole, PushesAreGenuine, AnsweredIsThere, SingleIsPushed;
  }

  lemma AfterInterrupt(cfg: Config, w: World) returns (a: World)
    requires Lists(cfg.list) && w.client.uploading.Some?
    ensures CanHappen(cfg, w, Interrupt) && a == Step(cfg, w, Interrupt)
    ensures a == w.(client := w.client.(rest := w.client.uploading, uploading := None))
  {
    a := Step(cfg, w, Interrupt);
  }

  lemma AfterComplete(cfg: Config, w: World) returns (b: World)
    requires Lists(cfg.list) && w.client.token.Some?
    ensures CanHappen(cfg, w, Complete(false)) && b == Step(cfg, w, Complete(false))
    ensures b.server == w.server && b.nextToken == w.nextToken
    ensures b.client.token.None? && b.client.package == w.client.package && b.client.rest == w.client.rest && b.client.uploading.None?
  {
    b := Step(cfg, w, Complete(false));
  }

  lemma AfterSession(cfg: Config, w: World) returns (c: World)
    requires Lists(cfg.list) && w.client.token.None? && w.server.dir == map[]
    ensures CanHappen(cfg, w, Init(true)) && c == Step(cfg, w, Init(true))
    ensures c.server.token == c.client.token == Some(w.nextToken) && c.client.package == w.client.package && c.client.rest == w.client.rest
  {
    c := Step(cfg, w, Init(true));
  }

  lemma Resumes(cfg: Config, w: World, c: World)
    requires Lists(cfg.list) && w.client.uploading.Some? && w.client.package.Some? && Packed(cfg, w.client.package.value)
    requires IsWhole(w.client.uploading.value, w.client.package.value)
    requires c.client.token.Some? && c.client.package == w.client.package && c.client.rest == w.client.uploading
    ensures CanHappen(cfg, c, StartUpload)
    ensures var x := Step(cfg, c, StartUpload);
            && x.client.package == w.client.package && x.client.uploading == w.client.uploading && x.client.at == 0
            && x.client.token == c.client.token && x.server == c.server
  {
    hide Packed;
    PackedIsNotEmpty(cfg, w.client.package.value);
    SendsExactly(cfg, w.client.package.value.volumes, c.client.rest, "");
    var n :| n in w.client.package.value.volumes;
    assert n in w.client.uploading.value;
    hide VolumesToSend;
  }

  lemma FourSteps(cfg: Config, w: World, e1: Event, a: World, e2: Event, b: World, e3: Event, c: World, e4: Event, x: World)
    requires Lists(cfg.list)
    requires CanHappen(cfg, w, e1) && Step(cfg, w, e1) == a && CanHappen(cfg, a, e2) && Step(cfg, a, e2) == b
    requires CanHappen(cfg, b, e3) && Step(cfg, b, e3) == c && CanHappen(cfg, c, e4) && Step(cfg, c, e4) == x
    ensures Run(cfg, w, [e1, e2, e3, e4], x)
  {
    hide CanHappen, Step;
    assert [e1, e2, e3, e4][1..] == [e2, e3, e4] && [e2, e3, e4][1..] == [e3, e4] && [e3, e4][1..] == [e4];
    assert [e4][1..] == [];
    assert Run(cfg, x, [], x);
    assert Run(cfg, c, [e4], x);
    assert Run(cfg, b, [e3, e4], x);
    assert Run(cfg, a, [e2, e3, e4], x);
  }
}
