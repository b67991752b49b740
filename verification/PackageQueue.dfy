/** The queue of packages for each client: units are merged into the newest package until it
    is packed, and merging them is no different, for the client, from sending each of them. */
module PackageQueueing {
  import opened Wrappers
  import Text

  type Data = map<string, string>

  datatype Key = Key(className: string, id: string)

  /** A queued unit; a unit without an id is skipped. */
  datatype Upsert = Upsert(id: Option<string>, className: string, data: Data)

  /** A file of a package. */
  datatype Item = Item(key: Key, data: Data)

  type Files = map<string, Item>

  datatype DataPackage = DataPackage(id: nat, packed: bool, files: Files)

  type Encoding = string -> string

  /** URLEncoder is injective and leaves no at-sign. */
  ghost predicate Encodes(enc: Encoding) {
    && (forall a, b {:trigger enc(a), enc(b)} | enc(a) == enc(b) :: a == b)
    && (forall a {:trigger enc(a)} :: '@' !in enc(a))
  }

  function FileName(enc: Encoding, k: Key): string {
    k.className + "@" + enc(k.id) + ".json"
  }

  /** The file name tells the class and the id, whatever characters the class name has. */
  lemma FileNameInjective(enc: Encoding, a: Key, b: Key)
    requires Encodes(enc) && FileName(enc, a) == FileName(enc, b)
    ensures a == b
  {
    FileNameParts(enc, a);
    FileNameParts(enc, b);
  }

  lemma FileNameParts(enc: Encoding, k: Key)
    requires Encodes(enc)
    ensures var s := FileName(enc, k); var i := Text.LastIndexOf(s, '@');
            0 <= i && i + 1 <= |s| - 5 && s[..i] == k.className && s[i + 1..|s| - 5] == enc(k.id)
  {
    var tail := enc(k.id) + ".json";
    forall j | 0 <= j < |tail| ensures tail[j] != '@' {
      if j < |enc(k.id)| {
        assert tail[j] == enc(k.id)[j];
      }
    }
    var s := FileName(enc, k);
    assert s == k.className + ['@'] + tail;
    Text.SeparatorPosition(k.className, '@', tail);
    assert s[|k.className| + 1..|s| - 5] == enc(k.id);
  }

  function QueuedOne(enc: Encoding, files: Files, u: Upsert): Files {
    if u.id.None? then files else files[FileName(enc, Key(u.className, u.id.value)) := Item(Key(u.className, u.id.value), u.data)]
  }

  function Queued(enc: Encoding, files: Files, us: seq<Upsert>): Files {
    if us == [] then files else QueuedOne(enc, Queued(enc, files, us[..|us| - 1]), us[|us| - 1])
  }

  predicate IsOpen(ps: seq<DataPackage>) {
    ps != [] && !ps[|ps| - 1].packed
  }

  function AfterQueue(enc: Encoding, ps: seq<DataPackage>, id: nat, us: seq<Upsert>): seq<DataPackage> {
    if IsOpen(ps) then ps[|ps| - 1 := ps[|ps| - 1].(files := Queued(enc, ps[|ps| - 1].files, us))]
    else ps + [DataPackage(id, false, Queued(enc, map[], us))]
  }

  function AfterPack(ps: seq<DataPackage>): seq<DataPackage> {
    if IsOpen(ps) then ps[|ps| - 1 := ps[|ps| - 1].(packed := true)] else ps
  }

  function AfterCommit(ps: seq<DataPackage>): seq<DataPackage> {
    if ps == [] then ps else ps[1..]
  }

  type Table = map<int, seq<DataPackage>>

  function PackagesOf(t: Table, client: int): seq<DataPackage> {
    if client in t then t[client] else []
  }

  /** The package table, oldest package of each client first. */
  class PackageQueue {
    const enc: Encoding
    var table: Table
    var nextId: nat

    constructor (enc: Encoding)
      ensures this.enc == enc && table == map[] && nextId == 0
    {
      this.enc := enc;
      table := map[];
      nextId := 0;
    }

    method LastPackage(client: int) returns (p: Option<DataPackage>)
      ensures var ps := PackagesOf(table, client); p == if ps == [] then None else Some(ps[|ps| - 1])
    {
      var ps := PackagesOf(table, client);
      p := if |ps| == 0 then None else Some(ps[|ps| - 1]);
    }

    method UpdateLast(client: int, p: DataPackage)
      requires PackagesOf(table, client) != []
      modifies this`table
      ensures var ps := PackagesOf(old(table), client); table == old(table)[client := ps[|ps| - 1 := p]]
    {
      var ps := PackagesOf(table, client);
      table := table[client := ps[|ps| - 1 := p]];
    }

    method CreateNewPackage(client: int) returns (p: DataPackage)
      modifies this
      ensures p == DataPackage(old(nextId), false, map[]) && nextId == old(nextId) + 1
      ensures table == old(table)[client := PackagesOf(old(table), client) + [p]]
    {
      p := DataPackage(nextId, false, map[]);
      nextId := nextId + 1;
      table := table[client := PackagesOf(table, client) + [p]];
    }

    /** Queue, as far as data units are concerned; other clients' packages are not touched. */
    method Queue(client: int, changes: seq<Upsert>)
      modifies this
      ensures table == old(table)[client := AfterQueue(enc, PackagesOf(old(table), client), old(nextId), changes)]
      ensures nextId >= old(nextId)
    {
      var last := LastPackage(client);
      var p;
      if last.None? || last.value.packed {
        p := CreateNewPackage(client);
      } else {
        p := last.value;
      }
      ghost var mid := table;
      var files := p.files;
      for i := 0 to |changes|
        invariant files == Queued(enc, p.files, changes[..i]) && table == mid
      {
        assert changes[..i + 1][..i] == changes[..i];
        if changes[i].id.Some? {
          var k := Key(changes[i].className, changes[i].id.value);
          files := files[FileName(enc, k) := Item(k, changes[i].data)];
        }
      }
      assert changes[..|changes|] == changes;
      UpdateLast(client, p.(files := files));
      ghost var was := PackagesOf(old(table), client);
      if last.None? || last.value.packed {
        assert (was + [p])[|was| := p.(files := files)] == was + [p.(files := files)];
      }
    }

    /** Pack: the newest package is closed. */
    method Pack(client: int)
      modifies this
      ensures PackagesOf(table, client) == AfterPack(PackagesOf(old(table), client))
      ensures forall c | c != client :: PackagesOf(table, c) == PackagesOf(old(table), c)
    {
      var last := LastPackage(client);
      if last.Some? && !last.value.packed {
        UpdateLast(client, last.value.(packed := true));
      }
    }

    /** CommitDequeue: the oldest package is removed. */
    method CommitDequeue(client: int)
      modifies this
      ensures PackagesOf(table, client) == AfterCommit(PackagesOf(old(table), client))
      ensures forall c | c != client :: PackagesOf(table, c) == PackagesOf(old(table), c)
    {
      var ps := PackagesOf(table, client);
      if |ps| > 0 {
        table := table[client := ps[1..]];
      }
    }
  }

  // What the files of a package mean.

  type Store = map<Key, Data>

  ghost predicate Keyed(enc: Encoding, files: Files) {
    forall n | n in files :: n == FileName(enc, files[n].key)
  }

  ghost function Contents(enc: Encoding, files: Files): Store {
    map k: Key | k in KeysOf(files) && FileName(enc, k) in files :: files[FileName(enc, k)].data
  }

  function KeysOf(files: Files): set<Key> {
    set n | n in files :: files[n].key
  }

  /** The queued units, applied one by one. */
  function Upserted(m: Store, us: seq<Upsert>): Store {
    if us == [] then m
    else
      var u := us[|us| - 1];
      var before := Upserted(m, us[..|us| - 1]);
      if u.id.None? then before else before[Key(u.className, u.id.value) := u.data]
  }

  lemma KeyedHolds(enc: Encoding, files: Files, k: Key)
    requires Encodes(enc) && Keyed(enc, files)
    ensures k in Contents(enc, files) <==> FileName(enc, k) in files
    ensures FileName(enc, k) in files ==> files[FileName(enc, k)].key == k && Contents(enc, files)[k] == files[FileName(enc, k)].data
  {
    if FileName(enc, k) in files {
      FileNameInjective(enc, k, files[FileName(enc, k)].key);
      assert files[FileName(enc, k)].key in KeysOf(files);
    }
  }

  lemma QueuedOneMeans(enc: Encoding, files: Files, u: Upsert)
    requires Encodes(enc) && Keyed(enc, files) && u.id.Some?
    ensures var after := QueuedOne(enc, files, u);
            Keyed(enc, after) && Contents(enc, after) == Contents(enc, files)[Key(u.className, u.id.value) := u.data]
  {
    hide FileName, Contents;
    var key, after := Key(u.className, u.id.value), QueuedOne(enc, files, u);
    var a, b := Contents(enc, after), Contents(enc, files)[key := u.data];
    forall k ensures k in a <==> k in b
      ensures k in a ==> a[k] == b[k] {
      KeyedHolds(enc, files, k);
      KeyedHolds(enc, after, k);
      if FileName(enc, k) == FileName(enc, key) {
        FileNameInjective(enc, k, key);
      }
    }
  }

  /** Files written over each other hold what the units, applied one by one, leave. */
  lemma {:induction false} QueuedMeans(enc: Encoding, files: Files, us: seq<Upsert>)
    requires Encodes(enc) && Keyed(enc, files)
    ensures Keyed(enc, Queued(enc, files, us)) && Contents(enc, Queued(enc, files, us)) == Upserted(Contents(enc, files), us)
  {
    hide Contents, Keyed;
    if us != [] {
      QueuedMeans(enc, files, us[..|us| - 1]);
      if us[|us| - 1].id.Some? {
        QueuedOneMeans(enc, Queued(enc, files, us[..|us| - 1]), us[|us| - 1]);
      }
    }
  }

  lemma {:induction false} UpsertedOver(m: Store, n: Store, us: seq<Upsert>)
    ensures Upserted(m + n, us) == m + Upserted(n, us)
  {
    if us != [] {
      UpsertedOver(m, n, us[..|us| - 1]);
    }
  }

  // Applying a package.

  /** acceptDataUnit for the files of a listing, in its order. */
  function Applied(store: Store, files: Files, names: seq<string>): Store
    requires forall n | n in names :: n in files
  {
    if names == [] then store
    else Applied(store, files, names[..|names| - 1])[files[names[|names| - 1]].key := files[names[|names| - 1]].data]
  }

  lemma {:induction false} AppliedAt(enc: Encoding, store: Store, files: Files, names: seq<string>, k: Key)
    requires Encodes(enc) && Keyed(enc, files) && forall n | n in names :: n in files
    ensures var a, c := Applied(store, files, names), Contents(enc, files);
            if FileName(enc, k) in names then k in a && k in c && a[k] == c[k]
            else (k in a <==> k in store) && (k in a ==> a[k] == store[k])
  {
    hide FileName, Contents;
    if names != [] {
      var front, last := names[..|names| - 1], names[|names| - 1];
      assert names == front + [last] && last in names;
      forall n | n in front ensures n in files {
        assert n in names;
      }
      AppliedAt(enc, store, files, front, k);
      KeyedHolds(enc, files, k);
      KeyedHolds(enc, files, files[last].key);
      if FileName(enc, k) == last {
        FileNameInjective(enc, k, files[last].key);
      }
    }
  }

  lemma AppliedWithin(enc: Encoding, store: Store, files: Files, names: seq<string>)
    requires Encodes(enc) && Keyed(enc, files) && forall n | n in names :: n in files
    ensures Applied(store, files, names) + Contents(enc, files) == store + Contents(enc, files)
  {
    hide FileName, Contents, Applied, Keyed;
    var a, c := Applied(store, files, names), Contents(enc, files);
    forall k ensures k in a + c <==> k in store + c
      ensures k in a + c ==> (a + c)[k] == (store + c)[k] {
      AppliedAt(enc, store, files, names, k);
    }
  }

  /** In whatever order, and with whatever repetitions, the files of a package are applied, the
      result is the same. */
  lemma AppliedInAnyOrder(enc: Encoding, store: Store, files: Files, names: seq<string>)
    requires Encodes(enc) && Keyed(enc, files) && forall n :: n in names <==> n in files
    ensures Applied(store, files, names) == store + Contents(enc, files)
  {
    hide FileName, Contents, Applied, Keyed;
    var a, b := Applied(store, files, names), store + Contents(enc, files);
    forall k ensures k in a <==> k in b
      ensures k in a ==> a[k] == b[k] {
      AppliedAt(enc, store, files, names, k);
      KeyedHolds(enc, files, k);
    }
  }

  // Runs.

  /** One client and its packages: what the client stores, the package it has fetched, whether
      the server has dequeued that package, whether all of it has been applied, and the state
      that the queued units would leave if each was applied at once. */
  datatype World = World(store: Store, held: Option<Files>, committed: bool, applied: bool, packages: seq<DataPackage>, nextId: nat, log: Store)

  datatype Event =
    | Queue(changes: seq<Upsert>)
    | Pack
    | Fetch
    | Commit
    | Apply(names: seq<string>)
    | Finish
    | GiveUp

  ghost predicate CanHappen(w: World, e: Event) {
    match e
    case Queue(_) => true
    case Pack => true
    case Fetch => w.held.None? && w.packages != [] && w.packages[0].packed
    case Commit => w.held.Some? && !w.committed
    case Apply(names) => w.held.Some? && w.committed && forall n | n in names :: n in w.held.value
    case Finish => w.held.Some? && w.committed && w.applied
    case GiveUp => w.held.Some? && !w.committed
  }

  ghost function Step(enc: Encoding, w: World, e: Event): World
    requires CanHappen(w, e)
  {
    match e
    case Queue(us) => w.(packages := AfterQueue(enc, w.packages, w.nextId, us), nextId := w.nextId + 1, log := Upserted(w.log, us))
    case Pack => w.(packages := AfterPack(w.packages))
    case Fetch => w.(held := Some(w.packages[0].files), committed := false, applied := false)
    case Commit => w.(packages := AfterCommit(w.packages), committed := true)
    case Apply(names) =>
      w.(store := Applied(w.store, w.held.value, names), applied := w.applied || forall n | n in w.held.value :: n in names)
    case Finish => w.(held := None, committed := false, applied := false)
    case GiveUp => w.(held := None)
  }

  /** The packages laid over a store, oldest first. */
  ghost function Over(enc: Encoding, m: Store, ps: seq<DataPackage>): Store {
    if ps == [] then m else Over(enc, m, ps[..|ps| - 1]) + Contents(enc, ps[|ps| - 1].files)
  }

  /** At most one package is not packed, and it is the newest. */
  ghost predicate OnlyNewestOpen(ps: seq<DataPackage>) {
    forall i | 0 <= i < |ps| - 1 :: ps[i].packed
  }

  /** What the client will have once the package it holds is applied. */
  ghost function Settled(enc: Encoding, w: World): Store {
    if w.held.Some? && w.committed then w.store + Contents(enc, w.held.value) else w.store
  }

  ghost predicate Inv(enc: Encoding, w: World) {
    && OnlyNewestOpen(w.packages)
    && (forall i | 0 <= i < |w.packages| :: Keyed(enc, w.packages[i].files))
    && (w.held.Some? ==> Keyed(enc, w.held.value))
    && (w.held.Some? && !w.committed ==> w.packages != [] && w.packages[0].packed && w.packages[0].files == w.held.value)
    && (w.held.Some? && w.applied ==> w.store == w.store + Contents(enc, w.held.value))
    && Over(enc, Settled(enc, w), w.packages) == w.log
  }

  lemma {:induction false} OverCons(enc: Encoding, m: Store, ps: seq<DataPackage>)
    requires ps != []
    ensures Over(enc, m, ps) == Over(enc, m + Contents(enc, ps[0].files), ps[1..])
  {
    hide Contents;
    if |ps| == 1 {
      assert ps[..0] == [] && ps[1..] == [];
    } else {
      assert ps[..|ps| - 1][1..] == ps[1..][..|ps| - 2];
      OverCons(enc, m, ps[..|ps| - 1]);
    }
  }

  lemma QueueKeeps(enc: Encoding, w: World, us: seq<Upsert>)
    requires Encodes(enc) && Inv(enc, w)
    ensures Inv(enc, Step(enc, w, Queue(us)))
  {
    hide Contents, Keyed, Queued, Upserted, Encodes;
    var ps, base := w.packages, Settled(enc, w);
    var after := AfterQueue(enc, ps, w.nextId, us);
    if IsOpen(ps) {
      var front, last := ps[..|ps| - 1], ps[|ps| - 1];
      QueuedMeans(enc, last.files, us);
      UpsertedOver(Over(enc, base, front), Contents(enc, last.files), us);
      assert after[..|after| - 1] == front;
    } else {
      EmptyMeans(enc);
      QueuedMeans(enc, map[], us);
      UpsertedOver(w.log, map[], us);
      assert w.log + map[] == w.log;
      assert after[..|after| - 1] == ps;
    }
  }

  lemma EmptyMeans(enc: Encoding)
    ensures Keyed(enc, map[]) && Contents(enc, map[]) == map[]
  {
    assert Contents(enc, map[]).Keys == {};
  }

  lemma PackKeeps(enc: Encoding, w: World)
    requires Inv(enc, w)
    ensures Inv(enc, Step(enc, w, Pack))
  {
    hide Contents, Keyed;
    var ps := w.packages;
    if IsOpen(ps) {
      var after := AfterPack(ps);
      assert after[..|after| - 1] == ps[..|ps| - 1];
    }
  }

  lemma ApplyKeeps(enc: Encoding, w: World, names: seq<string>)
    requires Encodes(enc) && Inv(enc, w) && CanHappen(w, Apply(names))
    ensures Inv(enc, Step(enc, w, Apply(names)))
  {
    hide Contents, Keyed, Encodes, Over;
    var files := w.held.value;
    AppliedWithin(enc, w.store, files, names);
    if forall n | n in files :: n in names {
      AppliedInAnyOrder(enc, w.store, files, names);
      assert w.store + Contents(enc, files) == w.store + Contents(enc, files) + Contents(enc, files);
    } else if w.applied {
      AppliedAgain(enc, w.store, files, names);
    }
  }

  lemma AppliedAgain(enc: Encoding, store: Store, files: Files, names: seq<string>)
    requires Encodes(enc) && Keyed(enc, files) && (forall n | n in names :: n in files) && store == store + Contents(enc, files)
    ensures Applied(store, files, names) == store
  {
    hide FileName, Contents, Applied, Keyed;
    var a := Applied(store, files, names);
    forall k ensures k in a <==> k in store
      ensures k in a ==> a[k] == store[k] {
      AppliedAt(enc, store, files, names, k);
      if FileName(enc, k) in names {
        assert k in store + Contents(enc, files) && (store + Contents(enc, files))[k] == Contents(enc, files)[k];
      }
    }
  }

  /** Every event keeps the invariant. */
  lemma StepKeeps(enc: Encoding, w: World, e: Event)
    requires Encodes(enc) && Inv(enc, w) && CanHappen(w, e)
    ensures Inv(enc, Step(enc, w, e))
  {
    hide Contents, Keyed, Over, Encodes;
    match e
    case Queue(us) => QueueKeeps(enc, w, us);
    case Pack => PackKeeps(enc, w);
    case Commit => OverCons(enc, w.store, w.packages);
    case Apply(names) => ApplyKeeps(enc, w, names);
    case _ =>
  }

  ghost predicate Run(enc: Encoding, w: World, es: seq<Event>, r: World)
    decreases |es|
  {
    if es == [] then r == w else CanHappen(w, es[0]) && Run(enc, Step(enc, w, es[0]), es[1..], r)
  }

  lemma {:induction false} RunKeeps(enc: Encoding, w: World, es: seq<Event>, r: World)
    requires Encodes(enc) && Inv(enc, w) && Run(enc, w, es, r)
    ensures Inv(enc, r)
    decreases |es|
  {
    hide Inv, Step, CanHappen, Encodes;
    if es != [] {
      StepKeeps(enc, w, es[0]);
      RunKeeps(enc, Step(enc, w, es[0]), es[1..], r);
    }
  }

  function Fresh(store: Store): World {
    World(store, None, false, false, [], 0, store)
  }

  /** Coalescing refines the log: after any run, the packages still to come, laid over the
      client's store, are the queued units applied one by one, and with nothing left to come
      the client's store is exactly that. */
  lemma CoalescingRefinesTheLog(enc: Encoding, store: Store, es: seq<Event>, r: World)
    requires Encodes(enc) && Run(enc, Fresh(store), es, r)
    ensures OnlyNewestOpen(r.packages)
    ensures Over(enc, Settled(enc, r), r.packages) == r.log
    ensures r.packages == [] && r.held.None? ==> r.store == r.log
  {
    RunKeeps(enc, Fresh(store), es, r);
  }

  /** The server does not notice that a package was dequeued before: a repeated commit, sent
      because the first answer was lost, drops the next package, which the client never saw. */
  lemma RepeatedCommitLoses(enc: Encoding, k: Key, data: Data) returns (es: seq<Event>, w: World)
    requires Encodes(enc)
    ensures Run(enc, Fresh(map[]), es, w) && w.committed && k in w.log
    ensures Over(enc, Settled(enc, w), AfterCommit(w.packages)) != w.log
  {
    hide Encodes;
    var u := Upsert(Some(k.id), k.className, data);
    var w0 := Fresh(map[]);
    var w1 := Step(enc, w0, Queue([]));
    var w2 := Step(enc, w1, Pack);
    var w3 := Step(enc, w2, Queue([u]));
    var w4 := Step(enc, w3, Fetch);
    w := Step(enc, w4, Commit);
    es := [Queue([]), Pack, Queue([u]), Fetch, Commit];
    assert [u][..0] == [];
    assert w1.packages == [DataPackage(0, false, map[])] && w2.packages == [DataPackage(0, true, map[])];
    assert w3.packages[0] == DataPackage(0, true, map[]) && |w3.packages| == 2;
    assert w3.log == map[k := data];
    RunOne(enc, w4, Commit);
    RunCons(enc, w3, Fetch, [Commit], w);
    RunCons(enc, w2, Queue([u]), [Fetch, Commit], w);
    RunCons(enc, w1, Pack, [Queue([u]), Fetch, Commit], w);
    RunCons(enc, w0, Queue([]), [Pack, Queue([u]), Fetch, Commit], w);
    EmptyMeans(enc);
    assert AfterCommit(w.packages) == [];
    assert Settled(enc, w) == map[];
  }

  /** The units that some of the packages bring. */
  ghost function Brought(enc: Encoding, ps: seq<DataPackage>): set<Key> {
    if ps == [] then {} else Brought(enc, ps[..|ps| - 1]) + Contents(enc, ps[|ps| - 1].files).Keys
  }

  lemma {:induction false} OverKeys(enc: Encoding, m: Store, ps: seq<DataPackage>)
    ensures Over(enc, m, ps).Keys == m.Keys + Brought(enc, ps)
  {
    hide Contents;
    if ps != [] {
      OverKeys(enc, m, ps[..|ps| - 1]);
    }
  }

  lemma {:induction false} OverAgrees(enc: Encoding, m: Store, n: Store, ps: seq<DataPackage>, k: Key)
    requires k in Brought(enc, ps) || ((k in m <==> k in n) && (k in m ==> m[k] == n[k]))
    ensures var a, b := Over(enc, m, ps), Over(enc, n, ps); (k in a <==> k in b) && (k in a ==> a[k] == b[k])
  {
    hide Contents;
    if ps != [] && k !in Contents(enc, ps[|ps| - 1].files) {
      OverAgrees(enc, m, n, ps[..|ps| - 1], k);
    }
  }

  /** Whatever the client has, it does not matter whether some units are applied before the
      packages, exactly if each of them is brought again by one of the packages. */
  lemma SkippedExactly(enc: Encoding, skipped: Store, ps: seq<DataPackage>)
    ensures (forall m :: Over(enc, m, ps) == Over(enc, m + skipped, ps)) <==> skipped.Keys <= Brought(enc, ps)
  {
    hide Contents;
    if skipped.Keys <= Brought(enc, ps) {
      forall m ensures Over(enc, m, ps) == Over(enc, m + skipped, ps) {
        forall k ensures var a, b := Over(enc, m, ps), Over(enc, m + skipped, ps); (k in a <==> k in b) && (k in a ==> a[k] == b[k]) {
          OverAgrees(enc, m, m + skipped, ps, k);
        }
      }
    } else {
      OverKeys(enc, map[], ps);
      OverKeys(enc, map[] + skipped, ps);
      assert Over(enc, map[], ps).Keys != Over(enc, map[] + skipped, ps).Keys;
    }
  }

  /** A commit that is repeated is harmless, whatever the client has, exactly if every unit of
      the package it drops is brought again by a later one. */
  lemma RepeatedCommitExactly(enc: Encoding, ps: seq<DataPackage>)
    ensures (forall m :: Over(enc, m, AfterCommit(ps)) == Over(enc, m, ps)) <==>
              ps == [] || Contents(enc, ps[0].files).Keys <= Brought(enc, ps[1..])
  {
    hide Contents, Brought;
    if ps != [] {
      SkippedExactly(enc, Contents(enc, ps[0].files), ps[1..]);
      forall m ensures Over(enc, m, ps) == Over(enc, m + Contents(enc, ps[0].files), ps[1..]) {
        OverCons(enc, m, ps);
      }
    }
  }

  /** The client is stopped between the commit and the end of the application: the restored list is
      empty, nothing is left to download, and the directories are cleaned. */
  function Stopped(w: World): World {
    w.(held := None, committed := false, applied := false)
  }

  /** Being stopped there is harmless, whatever else the client has, exactly if every unit of the
      package it held is brought again by a later one. */
  lemma StoppedExactly(enc: Encoding, w: World)
    requires w.held.Some? && w.committed
    ensures (forall m {:trigger Over(enc, m, w.packages)} ::
               Over(enc, Settled(enc, Stopped(w.(store := m))), w.packages) == Over(enc, Settled(enc, w.(store := m)), w.packages)) <==>
              Contents(enc, w.held.value).Keys <= Brought(enc, w.packages)
  {
    hide Contents, Brought, Over;
    SkippedExactly(enc, Contents(enc, w.held.value), w.packages);
    forall m ensures Settled(enc, Stopped(w.(store := m))) == m && Settled(enc, w.(store := m)) == m + Contents(enc, w.held.value) {
    }
  }

  /** A run that ends there and loses a unit. */
  lemma StoppedLoses(enc: Encoding, k: Key, data: Data) returns (es: seq<Event>, w: World)
    requires Encodes(enc)
    ensures Run(enc, Fresh(map[]), es, w) && w.committed && w.held.Some? && k in w.log
    ensures Over(enc, Settled(enc, Stopped(w)), w.packages) != w.log
  {
    hide Encodes;
    var u := Upsert(Some(k.id), k.className, data);
    var w0 := Fresh(map[]);
    var w1 := Step(enc, w0, Queue([u]));
    var w2 := Step(enc, w1, Pack);
    var w3 := Step(enc, w2, Fetch);
    w := Step(enc, w3, Commit);
    es := [Queue([u]), Pack, Fetch, Commit];
    assert [u][..0] == [];
    assert IsOpen(w1.packages) && |w1.packages| == 1;
    assert |w2.packages| == 1 && w2.packages[0].packed;
    assert Upserted(w0.log, [u]) == w0.log[k := data];
    assert w1.log == map[k := data];
    RunOne(enc, w3, Commit);
    RunCons(enc, w2, Fetch, [Commit], w);
    RunCons(enc, w1, Pack, [Fetch, Commit], w);
    RunCons(enc, w0, Queue([u]), [Pack, Fetch, Commit], w);
    assert w.packages == [];
  }

  lemma RunOne(enc: Encoding, w: World, e: Event)
    requires CanHappen(w, e)
    ensures Run(enc, w, [e], Step(enc, w, e))
  {
    assert [e][1..] == [];
  }

  lemma RunCons(enc: Encoding, w: World, e: Event, es: seq<Event>, r: World)
    requires CanHappen(w, e) && Run(enc, Step(enc, w, e), es, r)
    ensures Run(enc, w, [e] + es, r)
  {
    assert ([e] + es)[1..] == es;
  }
}
