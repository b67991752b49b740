/** The server side of an upload: volumes are accepted into a directory, and when all of them
    are there the package is unpacked and pushed to the target system. */
module UploadServer {
  import opened Wrappers
  import opened ZipVolumes
  import opened ChangeFiles
  import Listing
  import Text

  type Files = map<string, Bytes>

  /** The order in which the file system lists a directory is arbitrary. */
  type Lister = Files -> seq<string>

  ghost predicate Lists(list: Lister) {
    forall m {:trigger list(m)} :: Listing.Distinct(list(m)) && forall n :: n in list(m) <==> n in m
  }

  ghost predicate NoCollisions(hash: Bytes -> string) {
    forall a, b {:trigger hash(a), hash(b)} | hash(a) == hash(b) :: a == b
  }

  /** The collaborators of the session: hash, archive and text formats, the file system, and
      the tokens of the users known to the server. */
  datatype Config = Config(hash: Bytes -> string, codec: Codec, json: Json, list: Lister, users: map<string, string>)

  ghost predicate Sound(cfg: Config) {
    NoCollisions(cfg.hash) && Inverse(cfg.codec) && Sorts(cfg.codec) && Reads(cfg.json) && Lists(cfg.list)
  }

  /** An upload request; all but the body is carried by headers. */
  datatype Request = Request(token: nat, name: string, body: Bytes, hashSum: string, total: nat)

  datatype Push = Push(userToken: string, unit: DataUnit)

  function VolumesIn(names: seq<string>, dir: Files): (r: seq<Volume>)
    requires forall n | n in names :: n in dir
    ensures |r| == |names| && forall i | 0 <= i < |names| :: r[i] == Volume(names[i], dir[names[i]])
  {
    seq(|names|, i requires 0 <= i < |names| => Volume(names[i], dir[names[i]]))
  }

  /** unPack: join the volumes, then read the files in the order of their names; None where the
      comparator of the volumes throws. */
  ghost function Unpacking(cfg: Config, dir: Files): Option<seq<DataUnit>>
    requires Lists(cfg.list)
  {
    match Joined(cfg.codec, map[], VolumesIn(cfg.list(dir), dir))
    case None => None
    case Some(files) =>
      var sorted := Listing.Sort(cfg.list(files), Text.NotAfter);
      Listing.SortPermutes(cfg.list(files), Text.NotAfter);
      Some(Replayed(cfg.json, files, sorted))
  }

  /** What is pushed: units as they are, changes under the token of their author, if there is one. */
  function PushOf(users: map<string, string>, u: DataUnit): seq<Push> {
    match u
    case Unit(_, _, _) => [Push("", u)]
    case Change(author, _, _, _, _) => if author in users then [Push(users[author], u)] else []
  }

  function Pushes(users: map<string, string>, us: seq<DataUnit>): seq<Push> {
    if us == [] then [] else Pushes(users, us[..|us| - 1]) + PushOf(users, us[|us| - 1])
  }

  /** A change is delivered if its author is known, anything else in any case. */
  predicate HasReceiver(users: map<string, string>, u: DataUnit) {
    u.Change? ==> u.author in users
  }

  predicate IsPushOf(users: map<string, string>, u: DataUnit, push: Push) {
    push.unit == u && if u.Change? then u.author in users && push.userToken == users[u.author] else push.userToken == ""
  }

  /** The positions, in order, of the units that have a receiver. */
  ghost predicate Receives(users: map<string, string>, us: seq<DataUnit>, at: seq<nat>) {
    && (forall j, k | 0 <= j < k < |at| :: at[j] < at[k])
    && (forall i: nat :: i in at <==> i < |us| && HasReceiver(users, us[i]))
  }

  /** Each unit that has a receiver is pushed once, in order, under the right token, and no other. */
  ghost predicate PushedFor(users: map<string, string>, us: seq<DataUnit>, pushes: seq<Push>) {
    exists at: seq<nat> :: Receives(users, us, at) && |at| == |pushes| && forall k | 0 <= k < |at| :: at[k] < |us| && IsPushOf(users, us[at[k]], pushes[k])
  }

  lemma {:induction false} PushesExactly(users: map<string, string>, us: seq<DataUnit>)
    ensures PushedFor(users, us, Pushes(users, us))
  {
    var at := PushedAt(users, us);
  }

  lemma {:induction false} PushedAt(users: map<string, string>, us: seq<DataUnit>) returns (at: seq<nat>)
    ensures Receives(users, us, at) && |at| == |Pushes(users, us)|
    ensures forall k | 0 <= k < |at| :: at[k] < |us| && IsPushOf(users, us[at[k]], Pushes(users, us)[k])
  {
    if us == [] {
      at := [];
    } else {
      hide Receives, HasReceiver, IsPushOf, PushOf;
      var n := |us| - 1;
      var before := PushedAt(users, us[..n]);
      OneMoreReceives(users, us, before);
      OnePush(users, us[n]);
      at := if HasReceiver(users, us[n]) then before + [n] else before;
      var pushes, last := Pushes(users, us[..n]), PushOf(users, us[n]);
      assert Pushes(users, us) == pushes + last;
      hide Pushes;
      forall k | 0 <= k < |at| ensures at[k] < |us| && IsPushOf(users, us[at[k]], (pushes + last)[k]) {
        if k < |before| {
          assert IsPushOf(users, us[..n][before[k]], pushes[k]);
        }
      }
    }
  }

  lemma OneMoreReceives(users: map<string, string>, us: seq<DataUnit>, at: seq<nat>)
    requires us != [] && Receives(users, us[..|us| - 1], at)
    ensures Receives(users, us, if HasReceiver(users, us[|us| - 1]) then at + [|us| - 1] else at)
  {
    hide HasReceiver;
    var n := |us| - 1;
    forall k | 0 <= k < |at| ensures at[k] < n {
      assert at[k] in at;
    }
    forall i: nat | i < n ensures i in at <==> HasReceiver(users, us[i]) {
      assert us[..n][i] == us[i];
    }
  }

  lemma OnePush(users: map<string, string>, u: DataUnit)
    ensures var r := PushOf(users, u);
            if HasReceiver(users, u) then |r| == 1 && IsPushOf(users, u, r[0]) else r == []
  {
  }

  /** What the session holds for one client; packages lists the pushes of each package in turn. */
  datatype Server = Server(dir: Files, token: Option<nat>, packages: seq<seq<Push>>)

  predicate Accepts(cfg: Config, dir: Files, r: Request) {
    cfg.hash(r.body) == r.hashSum || (r.name in dir && cfg.hash(dir[r.name]) == r.hashSum)
  }

  function Stored(cfg: Config, dir: Files, r: Request): Files {
    if cfg.hash(r.body) == r.hashSum then dir[r.name := r.body] else dir
  }

  /** The answer to an upload: 200, 406, or an error of the server. */
  datatype Reply = OK | NotAcceptable | Failed

  /** One upload request: the new state and the answer. */
  ghost function AfterUpload(cfg: Config, s: Server, r: Request): (Server, Reply)
    requires Lists(cfg.list)
  {
    if s.token != Some(r.token) || !Accepts(cfg, s.dir, r) then (s, NotAcceptable)
    else
      var dir := Stored(cfg, s.dir, r);
      if |dir| == r.total then
        match Unpacking(cfg, dir)
        case None => (s.(dir := map[]), Failed)
        case Some(units) => (s.(dir := map[], packages := s.packages + [Pushes(cfg.users, units)]), OK)
      else (s.(dir := dir), OK)
  }

  /** Init: the directory must be gone or empty, and a new token is issued. */
  function AfterInit(s: Server, token: nat): (Server, bool) {
    if s.dir == map[] then (s.(token := Some(token)), true) else (s, false)
  }

  class SimpleSyncSession {
    const cfg: Config
    var volumes: Files
    var uploadToken: Option<nat>
    var pushed: seq<seq<Push>>

    ghost function State(): Server
      reads this
    {
      Server(volumes, uploadToken, pushed)
    }

    constructor (cfg: Config)
      ensures this.cfg == cfg && State() == Server(map[], None, [])
    {
      this.cfg := cfg;
      volumes := map[];
      uploadToken := None;
      pushed := [];
    }

    /** prepare and generateUploadToken; the answer is false where the source throws. */
    method Init(token: nat) returns (ok: bool)
      modifies this
      ensures (State(), ok) == AfterInit(old(State()), token)
    {
      if |volumes| > 0 {
        return false;
      }
      uploadToken := Some(token);
      ok := true;
    }

    method Accept(name: string, file: Bytes, hashSum: string) returns (ok: bool)
      modifies this`volumes
      ensures var r := Request(0, name, file, hashSum, 0);
              ok == Accepts(cfg, old(volumes), r) && volumes == Stored(cfg, old(volumes), r)
    {
      if cfg.hash(file) == hashSum {
        volumes := volumes[name := file];
        return true;
      } else if name in volumes && cfg.hash(volumes[name]) == hashSum {
        return true;
      }
      return false;
    }

    method UnPack() returns (result: Option<seq<DataUnit>>)
      requires Lists(cfg.list)
      ensures result == Unpacking(cfg, volumes)
    {
      var tmp := new Folder();
      var processor := new ZipVolumeProcessor(0, cfg.codec);
      ListedOnce(cfg, volumes);
      var ok := processor.Join(VolumesIn(cfg.list(volumes), volumes), tmp);
      if !ok {
        return None;
      }
      var listing := cfg.list(tmp.files);
      Listing.SortPermutes(listing, Text.NotAfter);
      var changes := Listing.Sort(listing, Text.NotAfter);
      var units := [];
      for i := 0 to |changes|
        invariant units == Replayed(cfg.json, tmp.files, changes[..i])
      {
        assert changes[..i + 1][..i] == changes[..i];
        units := units + [FromFile(changes[i], cfg.json.read(tmp.files[changes[i]]))];
      }
      assert changes[..|changes|] == changes;
      result := Some(units);
    }

    /** The loop that pushes the units of a package. */
    method PushAll(data: seq<DataUnit>) returns (pushes: seq<Push>)
      ensures pushes == Pushes(cfg.users, data) && PushedFor(cfg.users, data, pushes)
    {
      hide PushedFor;
      pushes := [];
      for i := 0 to |data|
        invariant pushes == Pushes(cfg.users, data[..i])
      {
        assert data[..i + 1][..i] == data[..i];
        pushes := pushes + PushOf(cfg.users, data[i]);
      }
      assert data[..|data|] == data;
      PushesExactly(cfg.users, data);
    }

    /** AcceptVolume; whatever happens to a complete package, its volumes are deleted. */
    method AcceptVolume(r: Request) returns (reply: Reply)
      requires Lists(cfg.list)
      modifies this
      ensures (State(), reply) == AfterUpload(cfg, old(State()), r)
    {
      if uploadToken != Some(r.token) {
        return NotAcceptable;
      }
      var accepted := Accept(r.name, r.body, r.hashSum);
      if !accepted {
        return NotAcceptable;
      }
      if |volumes| == r.total {
        hide Stored, Unpacking, Accepts;
        var data := UnPack();
        if data.None? {
          volumes := map[];
          return Failed;
        }
        var pushes := PushAll(data.value);
        pushed := pushed + [pushes];
        volumes := map[];
      }
      reply := OK;
    }
  }

  lemma ListedOnce(cfg: Config, dir: Files)
    requires Lists(cfg.list)
    ensures |cfg.list(dir)| == |dir| && Listing.Distinct(cfg.list(dir)) && forall n :: n in cfg.list(dir) <==> n in dir
  {
    Listing.DistinctSize(cfg.list(dir), dir.Keys);
  }
}
