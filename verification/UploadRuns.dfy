/** Whole runs of uploads: requests may be lost, repeated, reordered and corrupted, the client
    may be interrupted and resume, and still the server unpacks nothing but the packages the
    client made. */
module UploadRuns {
  import opened Wrappers
  import opened ZipVolumes
  import opened ChangeFiles
  import opened UploadServer
  import Listing
  import Text

  /** What the client made of its changes: the volumes in out/volumes. */
  datatype Package = Package(units: seq<DataUnit>, volumes: Files)

  function FilesAt(vs: seq<Volume>): Files {
    Written(map[], vs)
  }

  /** The files of a directory, in some order. */
  ghost predicate IsListingOf(children: seq<Child>, files: Files) {
    && (forall i | 0 <= i < |children| :: children[i].tree.Regular? && children[i].name in files && files[children[i].name] == children[i].tree.content)
    && (forall i, j | 0 <= i < j < |children| :: children[i].name != children[j].name)
    && (forall n | n in files :: exists i :: 0 <= i < |children| && children[i].name == n)
  }

  function ArchiveOf(cfg: Config, children: seq<Child>): Bytes {
    var src := Source("changesets", Directory(children));
    cfg.codec.zip(EntriesOf(src, FilesOf(src.tree)))
  }

  /** The volumes come from packing the saved changes, whatever the listing and the limit. */
  ghost predicate IsCut(cfg: Config, p: Package) {
    exists children: seq<Child>, limit: int ::
      && IsListingOf(children, Saved(cfg.json, p.units))
      && p.volumes == FilesAt(VolumesOf("changesets", ArchiveOf(cfg, children), limit))
  }

  /** There are changes, and not so many that their order is lost. */
  ghost predicate Packed(cfg: Config, p: Package) {
    0 < |p.units| <= MOST && IsCut(cfg, p)
  }

  // Unpacking a whole package.

  lemma {:induction false} WrittenKeys(files: Files, vs: seq<Volume>, n: string)
    ensures n in Written(files, vs) <==> n in files || exists i :: 0 <= i < |vs| && vs[i].name == n
  {
    if vs != [] {
      WrittenKeys(files, vs[..|vs| - 1], n);
    }
  }

  lemma {:induction false} WrittenSize(files: Files, vs: seq<Volume>)
    requires forall i, j | 0 <= i < j < |vs| :: vs[i].name != vs[j].name
    requires forall i | 0 <= i < |vs| :: vs[i].name !in files
    ensures |Written(files, vs)| == |files| + |vs|
  {
    if vs != [] {
      var front, v := vs[..|vs| - 1], vs[|vs| - 1];
      WrittenSize(files, front);
      WrittenKeys(files, front, v.name);
      var w := Written(files, front);
      assert w[v.name := v.content].Keys == w.Keys + {v.name};
    }
  }

  lemma {:induction false} WrittenValues(files: Files, vs: seq<Volume>, i: nat)
    requires forall i, j | 0 <= i < j < |vs| :: vs[i].name != vs[j].name
    requires i < |vs|
    ensures vs[i].name in Written(files, vs) && Written(files, vs)[vs[i].name] == vs[i].content
  {
    if i < |vs| - 1 {
      WrittenValues(files, vs[..|vs| - 1], i);
    }
  }

  lemma WrittenExact(vs: seq<Volume>)
    requires forall i, j | 0 <= i < j < |vs| :: vs[i].name != vs[j].name
    ensures var r := FilesAt(vs);
            && (forall n :: n in r <==> exists i :: 0 <= i < |vs| && vs[i].name == n)
            && (forall i | 0 <= i < |vs| :: r[vs[i].name] == vs[i].content)
            && |r| == |vs|
  {
    hide Written;
    forall n ensures n in FilesAt(vs) <==> exists i :: 0 <= i < |vs| && vs[i].name == n {
      WrittenKeys(map[], vs, n);
    }
    forall i | 0 <= i < |vs| ensures vs[i].name in FilesAt(vs) && FilesAt(vs)[vs[i].name] == vs[i].content {
      WrittenValues(map[], vs, i);
    }
    WrittenSize(map[], vs);
  }

  lemma VolumeNamesDistinct(name: string, packet: Bytes, limit: int)
    ensures var vs := VolumesOf(name, packet, limit);
            |vs| > 0 && forall i, j | 0 <= i < j < |vs| :: vs[i].name != vs[j].name
  {
    hide CeilOfQuotient;
    var vs := VolumesOf(name, packet, limit);
    forall i, j | 0 <= i < j < |vs| ensures vs[i].name != vs[j].name {
      PieceIndex(name, i, j);
      Text.ParseDecimal(i);
      Text.ParseDecimal(j);
    }
  }

  /** Any listing of the volumes is a permutation of them. */
  lemma ListedVolumes(cfg: Config, vs: seq<Volume>)
    requires Lists(cfg.list) && forall i, j | 0 <= i < j < |vs| :: vs[i].name != vs[j].name
    ensures multiset(VolumesIn(cfg.list(FilesAt(vs)), FilesAt(vs))) == multiset(vs)
  {
    WrittenExact(vs);
    var dir := FilesAt(vs);
    var ns := cfg.list(dir);
    ListedOnce(cfg, dir);
    var listed := VolumesIn(ns, dir);
    forall v ensures v in listed <==> v in vs {
      if v in listed {
        var i :| 0 <= i < |ns| && listed[i] == v;
        assert ns[i] in ns;
        var j :| 0 <= j < |vs| && vs[j].name == ns[i];
        assert vs[j] == v;
      }
      if v in vs {
        var j :| 0 <= j < |vs| && vs[j] == v;
        assert v.name in ns;
        var i :| 0 <= i < |ns| && ns[i] == v.name;
        assert listed[i] == v;
      }
    }
    Listing.SameSet(listed, vs);
  }

  lemma {:induction false} FlatFiles(children: seq<Child>)
    requires forall i | 0 <= i < |children| :: children[i].tree.Regular?
    ensures |FilesOfAll(children)| == |children|
    ensures forall i | 0 <= i < |children| :: FilesOfAll(children)[i] == FileRef([children[i].name], children[i].tree.content)
  {
    if children != [] {
      FlatFiles(children[..|children| - 1]);
      var c := children[|children| - 1];
      assert FilesOf(c.tree) == [FileRef([], c.tree.content)];
      assert [c.name] + [] == [c.name];
    }
  }

  lemma SavedNamesArePlain(json: Json, us: seq<DataUnit>, n: string)
    requires n in Saved(json, us)
    ensures PlainName(n)
  {
    hide Saved, Text.Padded;
    SavedExact(json, us);
    var i :| 0 <= i < |us| && n == FileName(i, us[i]);
    FileNameIsPlain(i, us[i]);
  }

  lemma FileNameIsPlain(i: nat, u: DataUnit)
    ensures PlainName(FileName(i, u))
  {
    hide Text.Padded;
    var n, a, b := FileName(i, u), Text.Padded(i, NUMBER_WIDTH), Suffix(u);
    forall k | 0 <= k < |n| ensures n[k] != '/' {
      if k < |a| {
        assert n[k] == a[k];
      } else {
        assert n[k] == b[k - |a|];
        assert forall c | c in ".change.json" :: c != '/';
        assert forall c | c in ".unit.json" :: c != '/';
      }
    }
  }

  /** The entries of a flat directory are its files. */
  lemma FlatEntries(children: seq<Child>)
    requires forall i | 0 <= i < |children| :: children[i].tree.Regular? && PlainName(children[i].name)
    ensures var src := Source("changesets", Directory(children));
            var es := EntriesOf(src, FilesOf(src.tree));
            |es| == |children| && forall i | 0 <= i < |es| :: es[i] == Entry(children[i].name, children[i].tree.content)
  {
    FlatFiles(children);
    var src := Source("changesets", Directory(children));
    var fs, es := FilesOf(src.tree), EntriesOf(src, FilesOf(src.tree));
    forall i | 0 <= i < |es| ensures es[i] == Entry(children[i].name, children[i].tree.content) {
      assert fs[i].path == [children[i].name];
    }
  }

  /** A directory of saved changes is a well-named source whose files are the saved ones. */
  lemma SavedSource(cfg: Config, us: seq<DataUnit>, children: seq<Child>)
    requires IsListingOf(children, Saved(cfg.json, us))
    ensures var src := Source("changesets", Directory(children));
            WellNamed(src.tree) && forall n, b :: IsFileOf(src, n, b) <==> n in Saved(cfg.json, us) && Saved(cfg.json, us)[n] == b
  {
    hide Saved, Lookup, IsFileOf;
    var src, files := Source("changesets", Directory(children)), Saved(cfg.json, us);
    forall i | 0 <= i < |children| ensures PlainName(children[i].name) {
      SavedNamesArePlain(cfg.json, us, children[i].name);
    }
    EntryNamesDistinct(src);
    FlatEntries(children);
    hide EntriesOf, FilesOf, WellNamed;
    var es := EntriesOf(src, FilesOf(src.tree));
    forall n, b ensures IsFileOf(src, n, b) <==> n in files && files[n] == b {
      assert Entry(n, b) in es <==> IsFileOf(src, Entry(n, b).name, Entry(n, b).content);
      if Entry(n, b) in es {
        var i :| 0 <= i < |es| && es[i] == Entry(n, b);
        assert children[i].name in files;
      }
      if n in files && files[n] == b {
        var i :| 0 <= i < |children| && children[i].name == n;
        assert es[i] == Entry(n, b);
      }
    }
  }

  /** Joining all volumes of a package gives back exactly the saved files. */
  lemma JoinRestores(cfg: Config, us: seq<DataUnit>, children: seq<Child>, limit: int)
    requires Sound(cfg) && IsListingOf(children, Saved(cfg.json, us))
    ensures var dir := FilesAt(VolumesOf("changesets", ArchiveOf(cfg, children), limit));
            Joined(cfg.codec, map[], VolumesIn(cfg.list(dir), dir)) == Some(Saved(cfg.json, us))
  {
    hide Saved, IsListingOf, VolumesOf, Joined, Written, IsFileOf, CeilOfQuotient;
    var vs := VolumesOf("changesets", ArchiveOf(cfg, children), limit);
    VolumeNamesDistinct("changesets", ArchiveOf(cfg, children), limit);
    ListedVolumes(cfg, vs);
    SavedSource(cfg, us, children);
    var src, dir := Source("changesets", Directory(children)), FilesAt(vs);
    var listing := VolumesIn(cfg.list(dir), dir);
    ListedOnce(cfg, dir);
    JoinInvertsSplit(src, cfg.codec, limit, listing);
    var joined := Joined(cfg.codec, map[], listing).value;
    forall n ensures n in joined <==> n in Saved(cfg.json, us) {
      if n in joined {
        assert IsFileOf(src, n, joined[n]);
      }
      if n in Saved(cfg.json, us) {
        assert IsFileOf(src, n, Saved(cfg.json, us)[n]);
      }
    }
    forall n | n in joined ensures joined[n] == Saved(cfg.json, us)[n] {
      assert IsFileOf(src, n, joined[n]);
    }
    assert joined == Saved(cfg.json, us);
  }

  /** unPack on all volumes of a package yields its changes, each once, in creation order. */
  lemma UnpackRestores(cfg: Config, p: Package)
    requires Sound(cfg) && Packed(cfg, p)
    ensures Unpacking(cfg, p.volumes) == Some(p.units)
  {
    hide IsListingOf, VolumesOf, Joined, Written, Saved;
    var children: seq<Child>, limit: int :|
      && IsListingOf(children, Saved(cfg.json, p.units))
      && p.volumes == FilesAt(VolumesOf("changesets", ArchiveOf(cfg, children), limit));
    JoinRestores(cfg, p.units, children, limit);
    ListedOnce(cfg, Saved(cfg.json, p.units));
    ReplayedInOrder(cfg.json, p.units, cfg.list(Saved(cfg.json, p.units)));
  }

  /** Two packages with the same volumes hold the same changes. */
  lemma SameVolumes(cfg: Config, p: Package, q: Package)
    requires Sound(cfg) && Packed(cfg, p) && Packed(cfg, q) && p.volumes == q.volumes
    ensures p.units == q.units
  {
    hide Packed, Unpacking;
    UnpackRestores(cfg, p);
    UnpackRestores(cfg, q);
  }

  lemma PackedIsNotEmpty(cfg: Config, p: Package)
    requires Packed(cfg, p)
    ensures p.volumes != map[]
  {
    hide VolumesOf, IsListingOf, Written, Saved;
    var children: seq<Child>, limit: int :|
      && IsListingOf(children, Saved(cfg.json, p.units))
      && p.volumes == FilesAt(VolumesOf("changesets", ArchiveOf(cfg, children), limit));
    VolumeNamesDistinct("changesets", ArchiveOf(cfg, children), limit);
    WrittenExact(VolumesOf("changesets", ArchiveOf(cfg, children), limit));
  }

  // Runs.

  /** The client: the token of the session it is in, its package, the list kept in out/.rest, the
      volumes of the upload under way with the position reached and whether the last answer was
      200, and the volumes answered with success. */
  datatype Client = Client(
    token: Option<nat>,
    package: Option<Package>,
    rest: Option<seq<string>>,
    uploading: Option<seq<string>>,
    at: nat,
    ok: bool,
    answered: set<string>)

  /** The packages that were sent under each token, in order. */
  type History = map<nat, seq<Package>>

  predicate Made(h: History, t: nat, p: Package) {
    t in h && p in h[t]
  }

  function WithPackage(h: History, t: nat, p: Package): History {
    h[t := (if t in h then h[t] else []) + [p]]
  }

  /** sent holds the requests that may still arrive, once or more often; unpacked records the
      directories that unPack was started on, with the tokens, and mark how many there were when
      the package was made. */
  datatype World = World(
    server: Server,
    client: Client,
    sent: set<Request>,
    nextToken: nat,
    packages: History,
    unpacked: seq<(nat, Files)>,
    mark: nat)

  datatype Event =
    | Init(answer: bool)
    | Create(package: Package)
    | StartUpload
    | Send
    | Deliver(request: Request, body: Bytes, answer: bool)
    | Interrupt
    | GiveUp
    | PackageSent
    | Complete(cleaned: bool)

  /** OutgoingVolumes: the volumes named in .rest that still exist, or all of them. */
  function OutgoingVolumes(cfg: Config, c: Client): seq<string>
    requires c.package.Some?
  {
    VolumesToSend(cfg, c.package.value.volumes, c.rest)
  }

  function VolumesToSend(cfg: Config, files: Files, rest: Option<seq<string>>): seq<string> {
    var kept := if rest.Some? then Existing(rest.value, files) else [];
    if kept != [] then kept else cfg.list(files)
  }

  function Existing(names: seq<string>, files: Files): seq<string> {
    if names == [] then [] else Existing(names[..|names| - 1], files) + if names[|names| - 1] in files then [names[|names| - 1]] else []
  }

  const NO_CLIENT := Client(None, None, None, None, 0, false, {})

  predicate IsSending(c: Client) {
    && c.token.Some? && c.package.Some? && c.uploading.Some? && c.at < |c.uploading.value|
    && c.uploading.value[c.at] in c.package.value.volumes
  }

  /** UploadVolume: the volume, its hash, and the number of volumes of the upload. */
  function CurrentRequest(cfg: Config, c: Client): Request
    requires IsSending(c)
  {
    var n := c.uploading.value[c.at];
    var body := c.package.value.volumes[n];
    Request(c.token.value, n, body, cfg.hash(body), |c.uploading.value|)
  }

  ghost predicate CanHappen(cfg: Config, w: World, e: Event) {
    var c := w.client;
    match e
    case Init(_) => c.token.None?
    case Create(p) => c.token.Some? && c.package.None? && Packed(cfg, p)
    case StartUpload => c.token.Some? && c.package.Some?
    case Send => IsSending(c)
    case Deliver(r, _, _) => r in w.sent
    case Interrupt => c.uploading.Some?
    case GiveUp => c.uploading.Some?
    case PackageSent => c.uploading.Some? && c.at == |c.uploading.value| > 0 && c.ok
    case Complete(_) => c.token.Some?
  }

  /** The client is told how its current request fared: after 200 and 406 it goes on to the next
      volume, after anything else it sends the same one again. */
  function Answer(cfg: Config, c: Client, r: Request, reply: Reply): Client {
    if IsSending(c) && r == CurrentRequest(cfg, c) && reply != Failed then
      c.(at := c.at + 1, ok := reply == OK, answered := if reply == OK then c.answered + {r.name} else c.answered)
    else c
  }

  /** The delivery of a request that makes packageReady true. */
  predicate Starts(cfg: Config, s: Server, r: Request) {
    s.token == Some(r.token) && Accepts(cfg, s.dir, r) && |Stored(cfg, s.dir, r)| == r.total
  }

  /** What an event does. A delivery may find another body than the one sent, and its answer may
      get lost. A session ends with the directories cleaned or not. */
  ghost function Step(cfg: Config, w: World, e: Event): World
    requires Lists(cfg.list) && CanHappen(cfg, w, e)
  {
    var c := w.client;
    match e
    case Init(answer) =>
      var (s, ok) := AfterInit(w.server, w.nextToken);
      if ok && answer then
        w.(server := s, nextToken := w.nextToken + 1, client := c.(token := Some(w.nextToken), answered := {}), mark := |w.unpacked|,
           packages := if c.package.Some? then WithPackage(w.packages, w.nextToken, c.package.value) else w.packages)
      else w.(server := s, nextToken := w.nextToken + 1)
    case Create(p) =>
      w.(client := c.(package := Some(p), answered := {}), packages := WithPackage(w.packages, c.token.value, p), mark := |w.unpacked|)
    case StartUpload =>
      w.(client := c.(uploading := Some(OutgoingVolumes(cfg, c)), at := 0, ok := false))
    case Send =>
      w.(sent := w.sent + {CurrentRequest(cfg, c)})
    case Deliver(r, body, answer) =>
      var q := r.(body := body);
      var (s, reply) := AfterUpload(cfg, w.server, q);
      w.(server := s,
         client := if answer then Answer(cfg, c, r, reply) else c,
         unpacked := if Starts(cfg, w.server, q) then w.unpacked + [(r.token, Stored(cfg, w.server.dir, q))] else w.unpacked)
    case Interrupt =>
      w.(client := c.(rest := c.uploading, uploading := None))
    case GiveUp =>
      w.(client := c.(uploading := None))
    case PackageSent =>
      w.(client := c.(package := None, rest := None, uploading := None, answered := {}))
    case Complete(cleaned) =>
      w.(client := if cleaned then NO_CLIENT else NO_CLIENT.(package := c.package, rest := c.rest))
  }

  ghost predicate Run(cfg: Config, w: World, es: seq<Event>, r: World)
    requires Lists(cfg.list)
    decreases |es|
  {
    if es == [] then r == w else CanHappen(cfg, w, es[0]) && Run(cfg, Step(cfg, w, es[0]), es[1..], r)
  }

  const START := World(Server(map[], None, []), NO_CLIENT, {}, 0, map[], [], 0)

  /** Two packages that may share a token: the same volume names, and at most one volume that
      differs. */
  ghost predicate Kin(p: Package, q: Package) {
    && p.volumes.Keys == q.volumes.Keys
    && forall m, n | m in p.volumes && n in p.volumes && p.volumes[m] != q.volumes[m] && p.volumes[n] != q.volumes[n] :: m == n
  }

  ghost predicate KinTokens(h: History) {
    forall t, p, q | Made(h, t, p) && Made(h, t, q) :: Kin(p, q)
  }

  // What every step keeps.

  /** All the names of a package, each once. */
  ghost predicate IsWhole(names: seq<string>, p: Package) {
    Listing.Distinct(names) && forall n :: n in names <==> n in p.volumes
  }

  /** A request carries a volume of a package of its token, and the number of its volumes. */
  predicate Carries(cfg: Config, p: Package, r: Request) {
    r.name in p.volumes && r.hashSum == cfg.hash(p.volumes[r.name]) && r.total == |p.volumes|
  }

  ghost predicate Genuine(cfg: Config, h: History, r: Request) {
    exists p :: Made(h, r.token, p) && Carries(cfg, p, r)
  }

  /** Every file is the package's volume of that name. */
  predicate Within(dir: Files, p: Package) {
    forall n | n in dir :: n in p.volumes && dir[n] == p.volumes[n]
  }

  /** The server's directory is part of one package of its token. */
  ghost predicate DirIsGenuine(w: World) {
    w.server.dir != map[] ==> w.server.token.Some? && exists p :: Made(w.packages, w.server.token.value, p) && Within(w.server.dir, p)
  }

  ghost predicate IsPushed(cfg: Config, s: Server, p: Package) {
    exists i :: 0 <= i < |s.packages| && PushedFor(cfg.users, p.units, s.packages[i])
  }

  /** What unPack was started on was a whole package of the token, and it was pushed. */
  ghost predicate WasWhole(cfg: Config, h: History, s: Server, u: (nat, Files)) {
    exists p :: Made(h, u.0, p) && u.1 == p.volumes && IsPushed(cfg, s, p)
  }

  ghost predicate UnpackedIsWhole(cfg: Config, w: World) {
    forall i | 0 <= i < |w.unpacked| :: WasWhole(cfg, w.packages, w.server, w.unpacked[i])
  }

  /** Whatever was pushed is a package the client made, whole and in order. */
  ghost predicate PushesAreGenuine(cfg: Config, w: World) {
    forall i | 0 <= i < |w.server.packages| :: IsMade(cfg, w.packages, w.server.packages[i])
  }

  ghost predicate IsMade(cfg: Config, h: History, pushes: seq<Push>) {
    exists t, p :: Made(h, t, p) && PushedFor(cfg.users, p.units, pushes)
  }

  ghost predicate ClientInv(cfg: Config, w: World) {
    var c := w.client;
    && (c.token.Some? ==> c.token == w.server.token)
    && (c.package.Some? ==> Packed(cfg, c.package.value) && (c.token.Some? ==> Made(w.packages, c.token.value, c.package.value)))
    && (c.rest.Some? ==> c.package.Some? && IsWhole(c.rest.value, c.package.value))
    && (c.uploading.Some? ==> c.token.Some? && c.package.Some? && IsWhole(c.uploading.value, c.package.value))
    && (c.uploading.Some? && c.at > 0 && c.ok ==> c.at <= |c.uploading.value| && c.uploading.value[c.at - 1] in c.answered)
    && w.mark <= |w.unpacked|
    && (c.token.Some? && c.package.Some? ==> forall i | w.mark <= i < |w.unpacked| :: w.unpacked[i].0 == c.token.value)
  }

  /** The volumes answered with success are in the directory, unless something was unpacked since
      the package was made. */
  ghost predicate AnsweredIsThere(w: World) {
    var c := w.client;
    c.token.Some? && c.package.Some? && |w.unpacked| == w.mark ==> forall n | n in c.answered :: n in w.server.dir
  }

  /** A package of one volume is pushed by the time the client hears of it. */
  ghost predicate SingleIsPushed(cfg: Config, w: World) {
    var c := w.client;
    c.token.Some? && c.package.Some? && |c.package.value.volumes| == 1 && c.answered != {} ==> IsPushed(cfg, w.server, c.package.value)
  }

  ghost predicate Tokens(w: World) {
    && (w.server.token.Some? ==> w.server.token.value < w.nextToken)
    && (forall t | t in w.packages :: t < w.nextToken)
    && (forall r | r in w.sent :: r.token < w.nextToken)
  }

  /** The directory never holds the volumes of a whole package: that would have been unpacked. */
  ghost predicate Unfinished(w: World) {
    var t := w.server.token;
    t.Some? ==> forall p | Made(w.packages, t.value, p) :: w.server.dir.Keys != p.volumes.Keys
  }

  ghost predicate AllPacked(cfg: Config, h: History) {
    forall t, p | Made(h, t, p) :: Packed(cfg, p)
  }

  ghost predicate SentIsGenuine(cfg: Config, w: World) {
    forall r | r in w.sent :: Genuine(cfg, w.packages, r)
  }

  ghost predicate Inv(cfg: Config, w: World) {
    && Tokens(w) && ClientInv(cfg, w) && AllPacked(cfg, w.packages) && SentIsGenuine(cfg, w)
    && DirIsGenuine(w) && Unfinished(w) && UnpackedIsWhole(cfg, w) && PushesAreGenuine(cfg, w)
    && AnsweredIsThere(w) && SingleIsPushed(cfg, w)
  }

  lemma StartHolds(cfg: Config)
    ensures Inv(cfg, START)
  {
  }

  lemma {:induction false} ExistingAll(names: seq<string>, files: Files)
    requires forall n | n in names :: n in files
    ensures Existing(names, files) == names
  {
    if names != [] {
      assert names[|names| - 1] in names;
      forall n | n in names[..|names| - 1] ensures n in files {
        assert n in names;
      }
      ExistingAll(names[..|names| - 1], files);
      assert names == names[..|names| - 1] + [names[|names| - 1]];
    }
  }

  lemma {:induction false} ExistingExactly(names: seq<string>, files: Files, n: string)
    ensures n in Existing(names, files) <==> n in names && n in files
  {
    if names != [] {
      ExistingExactly(names[..|names| - 1], files, n);
      assert names == names[..|names| - 1] + [names[|names| - 1]];
    }
  }

  /** What is sent: of the volumes listed in .rest those that are there, or all that are there where
      the list is missing or has none of them. */
  lemma SendsExactly(cfg: Config, files: Files, rest: Option<seq<string>>, n: string)
    requires Lists(cfg.list)
    ensures n in VolumesToSend(cfg, files, rest) <==>
              n in files && (rest.Some? && (exists m :: m in rest.value && m in files) ==> n in rest.value)
    ensures rest.Some? && rest.value != [] && (forall m | m in rest.value :: m in files) ==> VolumesToSend(cfg, files, rest) == rest.value
  {
    hide Existing;
    ListedOnce(cfg, files);
    if rest.Some? {
      forall m ensures m in Existing(rest.value, files) <==> m in rest.value && m in files {
        ExistingExactly(rest.value, files, m);
      }
      if Existing(rest.value, files) != [] {
        assert Existing(rest.value, files)[0] in Existing(rest.value, files);
      }
      if forall m | m in rest.value :: m in files {
        ExistingAll(rest.value, files);
      }
    }
  }

  /** The volumes of an upload, resumed or not, are all volumes of the package: the total sent
      along is the number of volumes. A resumed upload sends them in the order of the first. */
  lemma OutgoingIsWhole(cfg: Config, w: World)
    requires Lists(cfg.list) && ClientInv(cfg, w) && w.client.package.Some?
    ensures IsWhole(OutgoingVolumes(cfg, w.client), w.client.package.value)
    ensures |OutgoingVolumes(cfg, w.client)| == |w.client.package.value.volumes|
    ensures w.client.rest.Some? ==> OutgoingVolumes(cfg, w.client) == w.client.rest.value
  {
    hide Packed;
    var c := w.client;
    PackedIsNotEmpty(cfg, c.package.value);
    ListedOnce(cfg, c.package.value.volumes);
    if c.rest.Some? {
      ExistingAll(c.rest.value, c.package.value.volumes);
    }
    Listing.DistinctSize(OutgoingVolumes(cfg, c), c.package.value.volumes.Keys);
  }

  /** A subset of the package with as many files is the package. */
  lemma AllThere(dir: Files, volumes: Files)
    requires |dir| == |volumes|
    requires forall n | n in dir :: n in volumes && dir[n] == volumes[n]
    ensures dir == volumes
  {
    assert dir.Keys <= volumes.Keys;
    SubsetOfSameSize(dir.Keys, volumes.Keys);
  }

  lemma SubsetOfSameSize(a: set<string>, b: set<string>)
    requires a <= b && |a| == |b|
    ensures a == b
  {
    assert |b - a| == |b| - |a|;
  }

  lemma SameSize(p: Package, q: Package)
    requires p.volumes.Keys == q.volumes.Keys
    ensures |p.volumes| == |q.volumes|
  {
    assert |p.volumes.Keys| == |q.volumes.Keys|;
  }

  /** A volume of a package of the token, written over part of a kin package, gives part of one
      of the two. */
  lemma StoredWithin(cfg: Config, dir: Files, p: Package, q: Package, r: Request)
    requires NoCollisions(cfg.hash) && Within(dir, p) && Kin(p, q) && Carries(cfg, q, r) && Accepts(cfg, dir, r)
    ensures Within(Stored(cfg, dir, r), p) || Within(Stored(cfg, dir, r), q)
    ensures r.name in Stored(cfg, dir, r)
  {
    var after := Stored(cfg, dir, r);
    assert after[r.name] == q.volumes[r.name];
    if p.volumes[r.name] != q.volumes[r.name] {
      forall n | n in after ensures n in q.volumes && after[n] == q.volumes[n] {
        if n != r.name {
          assert n in dir && p.volumes[n] == q.volumes[n];
        }
      }
    }
  }

  /** What a delivery leaves in the directory, whatever body arrives: part of a package. */
  lemma StoredIsGenuine(cfg: Config, w: World, r: Request, body: Bytes) returns (p: Package)
    requires Sound(cfg) && DirIsGenuine(w) && KinTokens(w.packages) && Genuine(cfg, w.packages, r) && w.server.token == Some(r.token)
    requires Accepts(cfg, w.server.dir, r.(body := body))
    ensures Made(w.packages, r.token, p) && Within(Stored(cfg, w.server.dir, r.(body := body)), p)
    ensures r.total == |p.volumes| && r.name in Stored(cfg, w.server.dir, r.(body := body))
  {
    hide Accepts, Stored, Kin, Within, Sound;
    assert NoCollisions(cfg.hash) by { SoundHash(cfg); }
    var carrier :| Made(w.packages, r.token, carrier) && Carries(cfg, carrier, r);
    var q := r.(body := body);
    if w.server.dir == map[] {
      EmptyWithin(carrier);
      KinToItself(carrier);
      StoredWithin(cfg, w.server.dir, carrier, carrier, q);
      p := carrier;
    } else {
      var owner :| Made(w.packages, r.token, owner) && Within(w.server.dir, owner);
      assert Kin(owner, carrier);
      StoredWithin(cfg, w.server.dir, owner, carrier, q);
      assert |owner.volumes| == |carrier.volumes| by { KinSize(owner, carrier); }
      p := if Within(Stored(cfg, w.server.dir, q), owner) then owner else carrier;
    }
  }

  lemma SoundHash(cfg: Config)
    requires Sound(cfg)
    ensures NoCollisions(cfg.hash)
  {
  }

  lemma EmptyWithin(p: Package)
    ensures Within(map[], p)
  {
  }

  lemma KinToItself(p: Package)
    ensures Kin(p, p)
  {
  }

  lemma KinSize(p: Package, q: Package)
    requires Kin(p, q)
    ensures |p.volumes| == |q.volumes| && p.volumes.Keys == q.volumes.Keys
  {
    SameSize(p, q);
  }

  /** packageReady holds only when the directory is a whole package of the token, and then unPack
      yields its changes. */
  lemma ReadyIsWhole(cfg: Config, w: World, r: Request, body: Bytes) returns (p: Package)
    requires Sound(cfg) && Inv(cfg, w) && KinTokens(w.packages) && r in w.sent && Starts(cfg, w.server, r.(body := body))
    ensures Made(w.packages, r.token, p) && Packed(cfg, p)
    ensures var dir := Stored(cfg, w.server.dir, r.(body := body)); dir == p.volumes && Unpacking(cfg, dir) == Some(p.units)
  {
    hide Packed, Accepts, Stored, Unpacking, Genuine, Sound, KinTokens;
    p := StoredIsGenuine(cfg, w, r, body);
    AllThere(Stored(cfg, w.server.dir, r.(body := body)), p.volumes);
    UnpackRestores(cfg, p);
  }

  // Each kind of step.

  lemma StoredKeeps(cfg: Config, dir: Files, r: Request)
    ensures forall n | n in dir :: n in Stored(cfg, dir, r)
  {
  }

  /** What an answer changes. */
  lemma AnswerFacts(cfg: Config, w: World, r: Request, reply: Reply)
    requires ClientInv(cfg, w)
    ensures var c, d := w.client, Answer(cfg, w.client, r, reply);
            && d == c.(at := d.at, ok := d.ok, answered := d.answered)
            && (d.answered == c.answered || (d.answered == c.answered + {r.name} && reply == OK && IsSending(c) && r == CurrentRequest(cfg, c)))
            && (d.uploading.Some? && d.at > 0 && d.ok ==> d.at <= |d.uploading.value| && d.uploading.value[d.at - 1] in d.answered)
  {
    hide Packed, IsWhole;
  }

  ghost predicate AtAnswered(c: Client) {
    c.uploading.Some? && c.at > 0 && c.ok ==> c.at <= |c.uploading.value| && c.uploading.value[c.at - 1] in c.answered
  }

  /** What a delivery may change, and what of it the invariant depends on. */
  lemma InvAfterDelivery(cfg: Config, w: World, x: World)
    requires Inv(cfg, w) && x == w.(server := x.server, client := x.client, unpacked := x.unpacked)
    requires x.server.token == w.server.token
    requires x.client == w.client.(at := x.client.at, ok := x.client.ok, answered := x.client.answered) && AtAnswered(x.client)
    requires |w.unpacked| <= |x.unpacked| && forall i | 0 <= i < |w.unpacked| :: x.unpacked[i] == w.unpacked[i]
    requires forall i | |w.unpacked| <= i < |x.unpacked| :: x.server.token == Some(x.unpacked[i].0)
    requires DirIsGenuine(x) && Unfinished(x) && UnpackedIsWhole(cfg, x) && PushesAreGenuine(cfg, x)
    requires AnsweredIsThere(x) && SingleIsPushed(cfg, x)
    ensures Inv(cfg, x)
  {
    hide DirIsGenuine, Unfinished, UnpackedIsWhole, PushesAreGenuine, AnsweredIsThere, SingleIsPushed, Packed;
    hide IsWhole, AllPacked, Genuine, Made;
  }

  lemma RefusedHolds(cfg: Config, w: World, r: Request)
    requires Lists(cfg.list) && Inv(cfg, w)
    ensures Inv(cfg, w.(client := Answer(cfg, w.client, r, NotAcceptable)))
  {
    hide Packed, IsWhole, IsMade, IsPushed, WasWhole, Genuine, Within, AllPacked, Answer;
    AnswerFacts(cfg, w, r, NotAcceptable);
    InvAfterDelivery(cfg, w, w.(client := Answer(cfg, w.client, r, NotAcceptable)));
  }

  lemma StoredHolds(cfg: Config, w: World, r: Request, body: Bytes, c: Client)
    requires Sound(cfg) && Inv(cfg, w) && KinTokens(w.packages) && r in w.sent && w.server.token == Some(r.token)
    requires Accepts(cfg, w.server.dir, r.(body := body)) && !Starts(cfg, w.server, r.(body := body))
    requires c == w.client || c == Answer(cfg, w.client, r, OK)
    ensures Inv(cfg, w.(server := w.server.(dir := Stored(cfg, w.server.dir, r.(body := body))), client := c))
  {
    hide Packed, IsMade, WasWhole, Genuine, Within, AllPacked, Answer, Accepts, Stored, Starts, Sound, Made;
    hide KinTokens, IsPushed;
    var q := r.(body := body);
    var p := StoredIsGenuine(cfg, w, r, body);
    StoredUnfinished(cfg, w, r, body, p);
    StoredKeeps(cfg, w.server.dir, q);
    AnswerFacts(cfg, w, r, OK);
    var x := w.(server := w.server.(dir := Stored(cfg, w.server.dir, q)), client := c);
    assert SingleIsPushed(cfg, x) by {
      PushedStays(cfg, w, x.server);
      if c.answered != w.client.answered && |c.package.value.volumes| == 1 {
        SingleStarts(cfg, w, r, body);
      }
    }
    assert UnpackedIsWhole(cfg, x) by { PushedStays(cfg, w, x.server); }
    assert AnsweredIsThere(x);
    assert DirIsGenuine(x) && Unfinished(x);
    hide ClientInv, Tokens, SentIsGenuine, DirIsGenuine, Unfinished, UnpackedIsWhole, AnsweredIsThere, SingleIsPushed;
    InvAfterDelivery(cfg, w, x);
  }

  /** Pushes that stay keep what is said of them. */
  lemma PushedStays(cfg: Config, w: World, s: Server)
    requires |w.server.packages| <= |s.packages| && forall i | 0 <= i < |w.server.packages| :: s.packages[i] == w.server.packages[i]
    ensures forall p | IsPushed(cfg, w.server, p) :: IsPushed(cfg, s, p)
    ensures forall u | WasWhole(cfg, w.packages, w.server, u) :: WasWhole(cfg, w.packages, s, u)
  {
    hide PushedFor;
    forall p | IsPushed(cfg, w.server, p) ensures IsPushed(cfg, s, p) {
      var i :| 0 <= i < |w.server.packages| && PushedFor(cfg.users, p.units, w.server.packages[i]);
      assert PushedFor(cfg.users, p.units, s.packages[i]);
    }
  }

  lemma StoredUnfinished(cfg: Config, w: World, r: Request, body: Bytes, p: Package)
    requires KinTokens(w.packages) && w.server.token == Some(r.token) && Made(w.packages, r.token, p) && r.total == |p.volumes|
    requires Accepts(cfg, w.server.dir, r.(body := body)) && !Starts(cfg, w.server, r.(body := body))
    ensures forall q | Made(w.packages, r.token, q) :: Stored(cfg, w.server.dir, r.(body := body)).Keys != q.volumes.Keys
  {
    hide Kin, Accepts, Stored;
    var dir := Stored(cfg, w.server.dir, r.(body := body));
    forall q | Made(w.packages, r.token, q) ensures dir.Keys != q.volumes.Keys {
      KinSize(p, q);
      assert |dir| == |dir.Keys| && |q.volumes| == |q.volumes.Keys|;
    }
  }

  /** An upload of a single volume that is accepted completes the package. */
  lemma SingleStarts(cfg: Config, w: World, r: Request, body: Bytes)
    requires Sound(cfg) && Inv(cfg, w) && KinTokens(w.packages) && w.server.token == Some(r.token)
    requires IsSending(w.client) && r == CurrentRequest(cfg, w.client) && |w.client.package.value.volumes| == 1
    requires Accepts(cfg, w.server.dir, r.(body := body))
    ensures Starts(cfg, w.server, r.(body := body))
    ensures Stored(cfg, w.server.dir, r.(body := body)) == w.client.package.value.volumes
  {
    hide Packed, IsMade, IsPushed, WasWhole, Genuine, AllPacked;
    var p := w.client.package.value;
    Listing.DistinctSize(w.client.uploading.value, p.volumes.Keys);
    SubsetOfSameSize({r.name}, p.volumes.Keys);
    if w.server.dir != map[] {
      var owner :| Made(w.packages, r.token, owner) && Within(w.server.dir, owner);
      KinSize(owner, p);
      OneName(w.server.dir, owner, r.name);
      assert false;
    }
    assert Stored(cfg, map[], r.(body := body)) == map[r.name := body];
    assert p.volumes == map[r.name := body];
  }

  lemma OneName(dir: Files, p: Package, n: string)
    requires dir != map[] && Within(dir, p) && p.volumes.Keys == {n}
    ensures dir.Keys == p.volumes.Keys
  {
    var m :| m in dir;
  }

  lemma PushedHolds(cfg: Config, w: World, r: Request, body: Bytes, c: Client)
    requires Sound(cfg) && Inv(cfg, w) && KinTokens(w.packages) && r in w.sent && Starts(cfg, w.server, r.(body := body))
    requires c == w.client || c == Answer(cfg, w.client, r, OK)
    ensures var q := r.(body := body);
            var units := Unpacking(cfg, Stored(cfg, w.server.dir, q));
            units.Some? &&
            Inv(cfg, w.(server := Server(map[], w.server.token, w.server.packages + [Pushes(cfg.users, units.value)]), client := c,
                        unpacked := w.unpacked + [(r.token, Stored(cfg, w.server.dir, q))]))
  {
    hide Packed, IsMade, WasWhole, Genuine, Within, AllPacked, Answer, Accepts, Stored, Sound, Made;
    hide KinTokens, IsPushed, Unpacking, Pushes, IsWhole;
    var q := r.(body := body);
    var p := ReadyIsWhole(cfg, w, r, body);
    AnswerFacts(cfg, w, r, OK);
    var u := (r.token, p.volumes);
    var x := w.(server := Server(map[], w.server.token, w.server.packages + [Pushes(cfg.users, p.units)]), client := c, unpacked := w.unpacked + [u]);
    PushedLast(cfg, w, x.server, p);
    PushedStays(cfg, w, x.server);
    assert SingleIsPushed(cfg, x) by {
      if c.answered != w.client.answered && |c.package.value.volumes| == 1 {
        SingleStarts(cfg, w, r, body);
        SameVolumes(cfg, p, c.package.value);
        PushedAlike(cfg, x.server, p, c.package.value);
      }
    }
    WholeIs(cfg, x, r.token, p);
    OneMoreUnpacked(cfg, w, x, u);
    OneMorePush(cfg, w, x.server, r.token, p);
    EmptyUnfinished(cfg, w);
    assert AnsweredIsThere(x) && DirIsGenuine(x) && Unfinished(x);
    hide ClientInv, Tokens, SentIsGenuine, DirIsGenuine, Unfinished, UnpackedIsWhole, AnsweredIsThere, SingleIsPushed;
    assert x.unpacked == w.unpacked + [u];
    InvAfterDelivery(cfg, w, x);
  }

  lemma PushedLast(cfg: Config, w: World, s: Server, p: Package)
    requires s.packages == w.server.packages + [Pushes(cfg.users, p.units)]
    ensures IsPushed(cfg, s, p)
  {
    hide Pushes, PushedFor;
    PushesExactly(cfg.users, p.units);
    assert PushedFor(cfg.users, p.units, s.packages[|w.server.packages|]);
  }

  lemma WholeIs(cfg: Config, w: World, t: nat, p: Package)
    requires Made(w.packages, t, p) && IsPushed(cfg, w.server, p)
    ensures WasWhole(cfg, w.packages, w.server, (t, p.volumes))
  {
  }

  lemma OneMoreUnpacked(cfg: Config, w: World, x: World, u: (nat, Files))
    requires UnpackedIsWhole(cfg, w) && x.packages == w.packages && x.unpacked == w.unpacked + [u]
    requires forall v | WasWhole(cfg, w.packages, w.server, v) :: WasWhole(cfg, w.packages, x.server, v)
    requires WasWhole(cfg, w.packages, x.server, u)
    ensures UnpackedIsWhole(cfg, x)
  {
    hide WasWhole;
    forall i | 0 <= i < |x.unpacked| ensures WasWhole(cfg, x.packages, x.server, x.unpacked[i]) {
      if i < |w.unpacked| {
        assert x.unpacked[i] == w.unpacked[i];
      }
    }
  }

  lemma OneMorePush(cfg: Config, w: World, s: Server, t: nat, p: Package)
    requires PushesAreGenuine(cfg, w) && Made(w.packages, t, p)
    requires s.packages == w.server.packages + [Pushes(cfg.users, p.units)]
    ensures forall i | 0 <= i < |s.packages| :: IsMade(cfg, w.packages, s.packages[i])
  {
    hide Pushes, PushedFor;
    PushesExactly(cfg.users, p.units);
    forall i | 0 <= i < |s.packages| ensures IsMade(cfg, w.packages, s.packages[i]) {
      if i < |w.server.packages| {
        assert s.packages[i] == w.server.packages[i];
      }
    }
  }

  lemma EmptyUnfinished(cfg: Config, w: World)
    requires AllPacked(cfg, w.packages)
    ensures forall t, p | Made(w.packages, t, p) :: p.volumes.Keys != {}
  {
    hide Packed;
    forall t, p | Made(w.packages, t, p) ensures p.volumes.Keys != {} {
      PackedIsNotEmpty(cfg, p);
    }
  }

  lemma DeliverHolds(cfg: Config, w: World, r: Request, body: Bytes, answer: bool)
    requires Sound(cfg) && Inv(cfg, w) && KinTokens(w.packages) && r in w.sent
    ensures Inv(cfg, Step(cfg, w, Deliver(r, body, answer)))
  {
    hide Inv, Unpacking, Pushes, Answer, Accepts, Stored, KinTokens;
    var q := r.(body := body);
    if Starts(cfg, w.server, q) {
      PushedHolds(cfg, w, r, body, if answer then Answer(cfg, w.client, r, OK) else w.client);
    } else if w.server.token == Some(r.token) && Accepts(cfg, w.server.dir, q) {
      StoredHolds(cfg, w, r, body, if answer then Answer(cfg, w.client, r, OK) else w.client);
    } else {
      RefusedHolds(cfg, w, r);
    }
  }

  /** One more package in the history. */
  lemma WithPackageFacts(cfg: Config, w: World, t: nat, p: Package)
    requires Packed(cfg, p) && AllPacked(cfg, w.packages)
    ensures var h := WithPackage(w.packages, t, p);
            && h.Keys == w.packages.Keys + {t} && Made(h, t, p) && AllPacked(cfg, h)
            && (forall u, q :: Made(h, u, q) <==> Made(w.packages, u, q) || (u == t && q == p))
            && (forall us | IsMade(cfg, w.packages, us) :: IsMade(cfg, h, us))
            && (forall u | WasWhole(cfg, w.packages, w.server, u) :: WasWhole(cfg, h, w.server, u))
            && (forall r | Genuine(cfg, w.packages, r) :: Genuine(cfg, h, r))
  {
    hide Packed, PushedFor, IsPushed, Carries;
    var h := WithPackage(w.packages, t, p);
    forall u, q ensures Made(h, u, q) <==> Made(w.packages, u, q) || (u == t && q == p) {
    }
    forall us | IsMade(cfg, w.packages, us) ensures IsMade(cfg, h, us) {
      var u, q :| Made(w.packages, u, q) && PushedFor(cfg.users, q.units, us);
      assert Made(h, u, q);
    }
    forall u | WasWhole(cfg, w.packages, w.server, u) ensures WasWhole(cfg, h, w.server, u) {
      var q :| Made(w.packages, u.0, q) && u.1 == q.volumes && IsPushed(cfg, w.server, q);
      assert Made(h, u.0, q);
    }
    forall r | Genuine(cfg, w.packages, r) ensures Genuine(cfg, h, r) {
      var q :| Made(w.packages, r.token, q) && Carries(cfg, q, r);
      assert Made(h, r.token, q);
    }
  }

  lemma InitHolds(cfg: Config, w: World, answer: bool)
    requires Lists(cfg.list) && Inv(cfg, w) && CanHappen(cfg, w, Init(answer))
    ensures Inv(cfg, Step(cfg, w, Init(answer)))
  {
    hide Packed, IsWhole, IsMade, IsPushed, WasWhole, Genuine, Within, AllPacked, WithPackage, Made;
    var x := Step(cfg, w, Init(answer));
    var c := w.client;
    EmptyUnfinished(cfg, w);
    if c.package.Some? {
      WithPackageFacts(cfg, w, w.nextToken, c.package.value);
      PackedIsNotEmpty(cfg, c.package.value);
    }
    PushedStays(cfg, w, x.server);
    PushedStays(cfg, w.(packages := x.packages), x.server);
  }

  lemma KinUnder(h: History, t: nat, p: Package, q: Package)
    requires KinTokens(h) && Made(h, t, p) && Made(h, t, q)
    ensures Kin(p, q)
  {
  }

  lemma CreateHolds(cfg: Config, w: World, p: Package)
    requires Lists(cfg.list) && Inv(cfg, w) && CanHappen(cfg, w, Create(p)) && KinTokens(Step(cfg, w, Create(p)).packages)
    ensures Inv(cfg, Step(cfg, w, Create(p)))
  {
    hide Packed, IsWhole, IsMade, IsPushed, WasWhole, Genuine, Within, AllPacked, WithPackage, KinTokens;
    var t := w.client.token.value;
    var x := Step(cfg, w, Create(p));
    WithPackageFacts(cfg, w, t, p);
    PackedIsNotEmpty(cfg, p);
    if w.server.dir != map[] {
      var owner :| Made(w.packages, t, owner) && Within(w.server.dir, owner);
      assert Made(x.packages, t, owner);
      KinUnder(x.packages, t, owner, p);
      KinSize(owner, p);
    }
    hide Made;
  }

  lemma UploadingHolds(cfg: Config, w: World, e: Event)
    requires Lists(cfg.list) && Inv(cfg, w) && CanHappen(cfg, w, e) && (e.StartUpload? || e.Send? || e.Interrupt? || e.GiveUp?)
    ensures Inv(cfg, Step(cfg, w, e))
  {
    hide Packed, PushedFor, IsMade, IsPushed, WasWhole, AllPacked, Within;
    if e.StartUpload? {
      OutgoingIsWhole(cfg, w);
      hide OutgoingVolumes;
    } else if e.Send? {
      var c, p := w.client, w.client.package.value;
      Listing.DistinctSize(c.uploading.value, p.volumes.Keys);
      assert |p.volumes| == |p.volumes.Keys|;
      assert Carries(cfg, p, CurrentRequest(cfg, c)) && Made(w.packages, c.token.value, p);
      assert Genuine(cfg, w.packages, CurrentRequest(cfg, c));
      hide Genuine;
    }
  }

  lemma EndHolds(cfg: Config, w: World, e: Event)
    requires Lists(cfg.list) && Inv(cfg, w) && CanHappen(cfg, w, e) && (e.PackageSent? || e.Complete?)
    ensures Inv(cfg, Step(cfg, w, e))
  {
    hide Packed, IsWhole, IsMade, IsPushed, WasWhole, Genuine, Within, AllPacked;
  }

  /** Every event keeps the invariant, as long as the packages of one token are kin. */
  lemma StepHolds(cfg: Config, w: World, e: Event)
    requires Sound(cfg) && Inv(cfg, w) && CanHappen(cfg, w, e) && KinTokens(Step(cfg, w, e).packages)
    ensures Inv(cfg, Step(cfg, w, e))
  {
    hide Inv, Packed, AfterUpload, AfterInit, Answer, KinTokens, CurrentRequest;
    match e
    case Init(answer) => InitHolds(cfg, w, answer);
    case Create(p) => CreateHolds(cfg, w, p);
    case Deliver(r, body, answer) => DeliverHolds(cfg, w, r, body, answer);
    case PackageSent => EndHolds(cfg, w, e);
    case Complete(_) => EndHolds(cfg, w, e);
    case _ => UploadingHolds(cfg, w, e);
  }

  /** What was made under a token stays made. */
  lemma {:induction false} HistoryGrows(cfg: Config, w: World, es: seq<Event>, r: World)
    requires Lists(cfg.list) && Run(cfg, w, es, r)
    ensures forall t, p | Made(w.packages, t, p) :: Made(r.packages, t, p)
    decreases |es|
  {
    hide CanHappen;
    if es != [] {
      StepGrows(cfg, w, es[0]);
      hide Step;
      HistoryGrows(cfg, Step(cfg, w, es[0]), es[1..], r);
    }
  }

  lemma StepGrows(cfg: Config, w: World, e: Event)
    requires Lists(cfg.list) && CanHappen(cfg, w, e)
    ensures forall t, p | Made(w.packages, t, p) :: Made(Step(cfg, w, e).packages, t, p)
  {
    hide AfterUpload, AfterInit, Answer, CurrentRequest, Packed, Starts;
  }

  /** Upload safety over whole runs. */
  lemma {:induction false} RunIsSafe(cfg: Config, w: World, es: seq<Event>, r: World)
    requires Sound(cfg) && Inv(cfg, w) && Run(cfg, w, es, r) && KinTokens(r.packages)
    ensures Inv(cfg, r)
    decreases |es|
  {
    hide Inv, Step, CanHappen, Made, Kin;
    if es != [] {
      var x := Step(cfg, w, es[0]);
      HistoryGrows(cfg, x, es[1..], r);
      StepHolds(cfg, w, es[0]);
      RunIsSafe(cfg, x, es[1..], r);
    }
  }

  /** In every run in which packages under one token are kin: the server's directory is part of a
      package of its token, whatever unPack was started on was a whole package of its token and was
      pushed, and nothing else was pushed. */
  lemma UploadIsSafe(cfg: Config, es: seq<Event>, r: World)
    requires Sound(cfg) && Run(cfg, START, es, r) && KinTokens(r.packages)
    ensures DirIsGenuine(r) && UnpackedIsWhole(cfg, r) && PushesAreGenuine(cfg, r)
  {
    hide Run, Sound, KinTokens;
    StartHolds(cfg);
    RunIsSafe(cfg, START, es, r);
  }

  /** When every volume has been answered with success, and the token served this package only,
      the package has been pushed. */
  lemma AllAnsweredIsDelivered(cfg: Config, w: World)
    requires Sound(cfg) && Inv(cfg, w) && w.client.package.Some? && w.client.token.Some?
    requires forall p | Made(w.packages, w.client.token.value, p) :: p.volumes == w.client.package.value.volumes
    requires forall n | n in w.client.package.value.volumes :: n in w.client.answered
    ensures IsPushed(cfg, w.server, w.client.package.value)
  {
    hide Packed, IsPushed, IsMade, IsWhole, Genuine, Sound;
    var t, p := w.client.token.value, w.client.package.value;
    PackedIsNotEmpty(cfg, p);
    if |w.unpacked| > w.mark {
      var u := w.unpacked[w.mark];
      assert u.0 == t && WasWhole(cfg, w.packages, w.server, u);
      var q :| Made(w.packages, u.0, q) && u.1 == q.volumes && IsPushed(cfg, w.server, q);
      SameVolumes(cfg, p, q);
      PushedAlike(cfg, w.server, q, p);
    } else {
      assert false;
    }
  }

  lemma PushedAlike(cfg: Config, s: Server, p: Package, q: Package)
    requires p.units == q.units && IsPushed(cfg, s, p)
    ensures IsPushed(cfg, s, q)
  {
  }
}
