/** ZipVolumeProcessor: a directory is packed into an archive that is cut into volumes, and
    the volumes, in whatever order they are listed, are joined and unpacked again. */
module ZipVolumes {
  import opened Wrappers
  import Listing
  import Text

  newtype byte = x: int | 0 <= x < 256

  type Bytes = seq<byte>

  datatype Tree = Regular(content: Bytes) | Directory(entries: seq<Child>)

  datatype Child = Child(name: string, tree: Tree)

  /** A file found below a directory, by the names that lead to it. */
  datatype FileRef = FileRef(path: seq<string>, content: Bytes)

  /** An entry of an archive. */
  datatype Entry = Entry(name: string, content: Bytes)

  datatype Volume = Volume(name: string, content: Bytes)

  predicate PlainName(s: string) {
    s != [] && '/' !in s
  }

  /** Names are plain and occur once in each directory. */
  ghost predicate WellNamed(t: Tree) {
    t.Directory? ==> WellNamedAll(t.entries)
  }

  ghost predicate WellNamedAll(cs: seq<Child>) {
    && (forall i | 0 <= i < |cs| :: PlainName(cs[i].name) && WellNamed(cs[i].tree))
    && (forall i, j | 0 <= i < j < |cs| :: cs[i].name != cs[j].name)
  }

  /** The file a path leads to. */
  ghost function Lookup(t: Tree, path: seq<string>): Option<Bytes>
    decreases |path|
  {
    if path == [] then (if t.Regular? then Some(t.content) else None)
    else if t.Directory? && exists c :: c in t.entries && c.name == path[0] then
      var c :| c in t.entries && c.name == path[0];
      Lookup(c.tree, path[1..])
    else None
  }

  function Under(name: string, fs: seq<FileRef>): (r: seq<FileRef>)
    ensures |r| == |fs| && forall i | 0 <= i < |fs| :: r[i] == FileRef([name] + fs[i].path, fs[i].content)
  {
    seq(|fs|, i requires 0 <= i < |fs| => FileRef([name] + fs[i].path, fs[i].content))
  }

  /** getFiles: all files below t, in the order of the listings. */
  function FilesOf(t: Tree): seq<FileRef> {
    match t
    case Regular(content) => [FileRef([], content)]
    case Directory(entries) => FilesOfAll(entries)
  }

  function FilesOfAll(cs: seq<Child>): seq<FileRef> {
    if cs == [] then [] else FilesOfAll(cs[..|cs| - 1]) + Under(cs[|cs| - 1].name, FilesOf(cs[|cs| - 1].tree))
  }

  method GetFiles(t: Tree) returns (files: seq<FileRef>)
    ensures files == FilesOf(t)
  {
    match t
    case Regular(content) =>
      files := [FileRef([], content)];
    case Directory(entries) =>
      files := [];
      for i := 0 to |entries|
        invariant files == FilesOfAll(entries[..i])
      {
        var below := GetFiles(entries[i].tree);
        assert entries[..i + 1][..i] == entries[..i];
        files := files + Under(entries[i].name, below);
      }
      assert entries[..|entries|] == entries;
  }

  /** getFiles finds exactly the files the tree has, and each once. */
  lemma {:induction false} FilesExact(t: Tree)
    requires WellNamed(t)
    ensures forall p, b :: FileRef(p, b) in FilesOf(t) <==> Lookup(t, p) == Some(b)
    ensures forall i, j | 0 <= i < j < |FilesOf(t)| :: FilesOf(t)[i].path != FilesOf(t)[j].path
    decreases t, 0
  {
    match t
    case Regular(content) =>
      forall p, b ensures FileRef(p, b) in FilesOf(t) <==> Lookup(t, p) == Some(b) {
      }
    case Directory(entries) =>
      FilesOfAllExact(entries);
      forall p, b ensures FileRef(p, b) in FilesOf(t) <==> Lookup(t, p) == Some(b) {
        if p != [] && exists c :: c in entries && c.name == p[0] {
          var c :| c in entries && c.name == p[0];
          OneChild(entries, c, p[0]);
        }
      }
  }

  lemma OneChild(cs: seq<Child>, c: Child, name: string)
    requires WellNamedAll(cs) && c in cs && c.name == name
    ensures forall d | d in cs && d.name == name :: d == c
  {
    var i :| 0 <= i < |cs| && cs[i] == c;
    forall d | d in cs && d.name == name ensures d == c {
      var j :| 0 <= j < |cs| && cs[j] == d;
    }
  }

  lemma {:induction false} FilesOfAllExact(cs: seq<Child>)
    requires WellNamedAll(cs)
    ensures forall p, b :: FileRef(p, b) in FilesOfAll(cs) <==>
                             p != [] && exists c :: c in cs && c.name == p[0] && Lookup(c.tree, p[1..]) == Some(b)
    ensures forall i, j | 0 <= i < j < |FilesOfAll(cs)| :: FilesOfAll(cs)[i].path != FilesOfAll(cs)[j].path
    decreases cs, 1
  {
    if cs != [] {
      var front, last := cs[..|cs| - 1], cs[|cs| - 1];
      assert cs == front + [last] && last in cs;
      FilesOfAllExact(front);
      FilesExact(last.tree);
      assert FilesOfAll(cs) == FilesOfAll(front) + Under(last.name, FilesOf(last.tree));
      hide FilesOfAll, FilesOf, Lookup, WellNamed, PlainName;
      var a, b := FilesOfAll(front), Under(last.name, FilesOf(last.tree));
      forall p, d ensures FileRef(p, d) in b <==> p != [] && last.name == p[0] && Lookup(last.tree, p[1..]) == Some(d) {
        UnderMember(last.name, FilesOf(last.tree), p, d);
      }
      forall p, d ensures FileRef(p, d) in a + b <==> p != [] && exists c :: c in cs && c.name == p[0] && Lookup(c.tree, p[1..]) == Some(d) {
        assert FileRef(p, d) in a + b <==> FileRef(p, d) in a || FileRef(p, d) in b;
        assert forall c :: c in cs <==> c in front || c == last;
      }
      forall i, j | 0 <= i < |a| && 0 <= j < |b| ensures a[i].path != b[j].path {
        assert FileRef(a[i].path, a[i].content) in a;
        var c :| c in front && c.name == a[i].path[0];
        var m :| 0 <= m < |front| && front[m] == c;
        assert cs[m].name != cs[|cs| - 1].name;
      }
      UnderDistinct(last.name, FilesOf(last.tree));
    }
  }

  lemma UnderMember(name: string, fs: seq<FileRef>, p: seq<string>, b: Bytes)
    ensures FileRef(p, b) in Under(name, fs) <==> p != [] && p[0] == name && FileRef(p[1..], b) in fs
  {
    var u := Under(name, fs);
    if FileRef(p, b) in u {
      var i :| 0 <= i < |u| && u[i] == FileRef(p, b);
      assert p == [name] + fs[i].path && p[1..] == fs[i].path;
      assert fs[i] == FileRef(p[1..], b);
    }
    if p != [] && p[0] == name && FileRef(p[1..], b) in fs {
      var i :| 0 <= i < |fs| && fs[i] == FileRef(p[1..], b);
      assert p == [name] + p[1..];
      assert u[i] == FileRef(p, b);
    }
  }

  lemma UnderDistinct(name: string, fs: seq<FileRef>)
    requires forall i, j | 0 <= i < j < |fs| :: fs[i].path != fs[j].path
    ensures var u := Under(name, fs); forall i, j | 0 <= i < j < |u| :: u[i].path != u[j].path
  {
    var u := Under(name, fs);
    forall i, j | 0 <= i < j < |u| ensures u[i].path != u[j].path {
      assert u[i].path[1..] == fs[i].path && u[j].path[1..] == fs[j].path;
    }
  }

  // Names of archive entries.

  function PathName(path: seq<string>): string {
    if path == [] then "" else if |path| == 1 then path[0] else path[0] + "/" + PathName(path[1..])
  }

  ghost predicate PlainPath(path: seq<string>) {
    forall i | 0 <= i < |path| :: PlainName(path[i])
  }

  lemma {:induction false} PathNameSplits(p: seq<string>)
    requires PlainPath(p) && p != []
    ensures PathName(p) != "" && ('/' in PathName(p) <==> |p| > 1)
    ensures var i := Text.IndexOf(PathName(p), '/');
            if |p| == 1 then PathName(p) == p[0] else i >= 0 && PathName(p)[..i] == p[0] && PathName(p)[i + 1..] == PathName(p[1..])
  {
    if |p| > 1 {
      Text.SeparatorPosition(p[0], '/', PathName(p[1..]));
      var s := p[0] + "/" + PathName(p[1..]);
      assert s[|p[0]|] == '/';
      assert s[..|p[0]|] == p[0] && s[|p[0]| + 1..] == PathName(p[1..]);
    }
  }

  lemma PathNameLength(p: seq<string>)
    requires PlainPath(p)
    ensures PathName(p) == "" <==> p == []
    ensures '/' in PathName(p) <==> |p| > 1
  {
    if p != [] {
      PathNameSplits(p);
    }
  }

  /** Different files have different entry names. */
  lemma {:induction false} PathNameInjective(p: seq<string>, q: seq<string>)
    requires PlainPath(p) && PlainPath(q) && PathName(p) == PathName(q)
    ensures p == q
  {
    hide PathName, PlainName;
    PathNameLength(p);
    PathNameLength(q);
    if p != [] && q != [] {
      PathNameSplits(p);
      PathNameSplits(q);
      if |p| > 1 {
        PathNameInjective(p[1..], q[1..]);
        assert p == [p[0]] + p[1..] && q == [q[0]] + q[1..];
      } else {
        assert p == [p[0]] && q == [q[0]];
      }
    }
  }

  /** What is packed: a directory, or one file under its name. */
  datatype Source = Source(name: string, tree: Tree)

  /** The name of an entry, relative to the directory packed or to the directory of the file packed. */
  function EntryName(src: Source, f: FileRef): string {
    if PathName(f.path) == "" then src.name else PathName(f.path)
  }

  function EntriesOf(src: Source, fs: seq<FileRef>): (r: seq<Entry>)
    ensures |r| == |fs| && forall i | 0 <= i < |fs| :: r[i] == Entry(EntryName(src, fs[i]), fs[i].content)
  {
    seq(|fs|, i requires 0 <= i < |fs| => Entry(EntryName(src, fs[i]), fs[i].content))
  }

  /** The archive name without extension: up to the last dot for a file. None stands for the
      exception when a file name has no dot. */
  function VolumeName(src: Source): Option<string> {
    if src.tree.Directory? then Some(src.name)
    else
      var i := Text.LastIndexOf(src.name, '.');
      if i < 0 then None else Some(src.name[..i])
  }

  /** Zip is an inverse pair; sort is the sorting of several volumes by the comparator, None where
      that throws. */
  datatype Codec = Codec(zip: seq<Entry> -> Bytes, unzip: Bytes -> seq<Entry>, sort: seq<Volume> -> Option<seq<Volume>>)

  ghost predicate Inverse(codec: Codec) {
    forall es {:trigger codec.zip(es)} :: codec.unzip(codec.zip(es)) == es
  }

  /** Volumes that the comparator puts in a total order are sorted by it; on others the outcome
      depends on the pairs that are compared, and is left open. */
  ghost predicate Sorts(codec: Codec) {
    forall vs {:trigger codec.sort(vs)} | Sortable(vs) :: codec.sort(vs) == Some(Listing.Sort(vs, InFront))
  }

  ghost predicate Sortable(vs: seq<Volume>) {
    && (forall v, w | v in vs && w in vs :: Comparable(v, w))
    && Listing.Orders(InFront, vs) && Listing.Antisymmetric(InFront, vs)
  }

  // Cutting.

  /** The pieces of at most limit bytes. */
  function Pieces(data: Bytes, limit: nat): seq<Bytes>
    requires limit > 0
    decreases |data|
  {
    if |data| <= limit then (if data == [] then [] else [data]) else [data[..limit]] + Pieces(data[limit..], limit)
  }

  function Concat(pieces: seq<Bytes>): Bytes {
    if pieces == [] then [] else pieces[0] + Concat(pieces[1..])
  }

  /** Math.ceil of the quotient, over the reals. */
  function CeilOfQuotient(n: nat, limit: nat): int
    requires limit > 0
  {
    -((-(n as real / limit as real)).Floor)
  }

  /** The number of volumes is exactly the number of pieces, no piece is empty or too long,
      and together they are the archive. */
  lemma {:induction false} PiecesExact(data: Bytes, limit: nat)
    requires limit > 0
    ensures |Pieces(data, limit)| == CeilOfQuotient(|data|, limit)
    ensures forall i | 0 <= i < |Pieces(data, limit)| :: 0 < |Pieces(data, limit)[i]| <= limit
    ensures Concat(Pieces(data, limit)) == data
    decreases |data|
  {
    if |data| > limit {
      PiecesExact(data[limit..], limit);
      CeilStep(|data|, limit);
      assert Pieces(data, limit)[1..] == Pieces(data[limit..], limit);
      assert data == data[..limit] + data[limit..];
    } else {
      CeilBase(|data|, limit);
      if data != [] {
        assert Concat([data]) == data + Concat([][..]);
      }
    }
  }

  lemma PiecesHead(data: Bytes, limit: nat)
    requires limit > 0 && Pieces(data, limit) != []
    ensures var ps, m := Pieces(data, limit), Min(limit, |data|); ps[0] == data[..m] && ps[1..] == Pieces(data[m..], limit)
  {
    if |data| <= limit {
      assert data[..|data|] == data && data[|data|..] == [];
    }
  }

  lemma CeilStep(n: nat, limit: nat)
    requires limit > 0 && n >= limit
    ensures CeilOfQuotient(n, limit) == CeilOfQuotient(n - limit, limit) + 1
  {
    var c, q := limit as real, (n - limit) as real / limit as real;
    assert q * c == (n - limit) as real;
    assert (q + 1.0) * c == n as real;
    QuotientIs(n as real, c, q + 1.0);
    assert (-(q + 1.0)).Floor == (-q).Floor - 1;
  }

  lemma QuotientIs(x: real, c: real, q: real)
    requires c > 0.0 && q * c == x
    ensures x / c == q
  {
  }

  lemma CeilBase(n: nat, limit: nat)
    requires limit > 0 && n <= limit
    ensures CeilOfQuotient(n, limit) == if n == 0 then 0 else 1
  {
    var q := n as real / limit as real;
    assert q * limit as real == n as real;
    if n > 0 {
      assert 0.0 < q <= 1.0;
    }
  }

  function PieceName(name: string, i: nat): string {
    name + ".vol" + Text.Decimal(i)
  }

  /** The volumes of an archive. */
  function VolumesOf(name: string, packet: Bytes, limit: int): seq<Volume> {
    if 0 < limit < |packet| then
      var ps := Pieces(packet, limit);
      seq(|ps|, i requires 0 <= i < |ps| => Volume(PieceName(name, i), ps[i]))
    else [Volume(name + ".zip", packet)]
  }

  /** An archive within the limit, or without one, is left whole; any other is cut into at least two numbered
      volumes. */
  lemma VolumesExactly(name: string, packet: Bytes, limit: int)
    ensures var vs := VolumesOf(name, packet, limit);
            if limit <= 0 || |packet| <= limit then vs == [Volume(name + ".zip", packet)]
            else |vs| >= 2 && (forall i | 0 <= i < |vs| :: vs[i].name == name + ".vol" + Text.Decimal(i) && 0 < |vs[i].content| <= limit)
                 && Joint(vs) == packet
  {
    if 0 < limit < |packet| {
      PiecesExact(packet, limit);
      var ps, vs := Pieces(packet, limit), VolumesOf(name, packet, limit);
      JointIsConcat(vs, ps);
      assert |ps| >= 2 by {
        assert ps[1..] == Pieces(packet[limit..], limit);
        PiecesExact(packet[limit..], limit);
      }
    }
  }

  /** The contents of the volumes, one after the other. */
  function Joint(vs: seq<Volume>): Bytes {
    if vs == [] then [] else vs[0].content + Joint(vs[1..])
  }

  lemma {:induction false} JointIsConcat(vs: seq<Volume>, ps: seq<Bytes>)
    requires |vs| == |ps| && forall i | 0 <= i < |vs| :: vs[i].content == ps[i]
    ensures Joint(vs) == Concat(ps)
  {
    if vs != [] {
      JointIsConcat(vs[1..], ps[1..]);
    }
  }

  /** The volumes of a directory are called after it, those of a file after its name up to the last dot,
      and a file without one cannot be split. */
  lemma NameExactly(src: Source, name: string, extension: string)
    requires '.' !in extension
    ensures src.tree.Directory? ==> VolumeName(src) == Some(src.name)
    ensures src.tree.Regular? && src.name == name + "." + extension ==> VolumeName(src) == Some(name)
    ensures src.tree.Regular? && src.name == extension ==> VolumeName(src) == None
  {
    Text.SeparatorPosition(name, '.', extension);
    if src.tree.Regular? && src.name == name + "." + extension {
      assert src.name == name + ['.'] + extension && src.name[..|name|] == name;
    }
  }

  function Min(a: int, b: int): int {
    if a < b then a else b
  }

  /** An open file: a read fills the buffer except at the end of the file. */
  class InputStream {
    const data: Bytes
    var position: nat

    ghost predicate Valid()
      reads this
    {
      position <= |data|
    }

    constructor (data: Bytes)
      ensures Valid() && this.data == data && position == 0
    {
      this.data := data;
      position := 0;
    }

    method Read(size: nat) returns (chunk: Bytes)
      requires Valid()
      modifies this
      ensures Valid() && position == Min(old(position) + size, |data|)
      ensures chunk == data[old(position)..position]
    {
      var end := Min(position + size, |data|);
      chunk := data[position..end];
      position := end;
    }
  }

  /** The loops that copy a stream through a buffer of 1024 bytes. */
  method CopyStream(data: Bytes) returns (copy: Bytes)
    ensures copy == data
  {
    var input := new InputStream(data);
    copy := [];
    var chunk := input.Read(1024);
    while |chunk| > 0
      invariant input.Valid() && input.data == data && fresh(input)
      invariant copy + chunk == data[..input.position]
      invariant chunk == [] ==> input.position == |data|
      decreases |data| - |copy|
    {
      copy := copy + chunk;
      chunk := input.Read(1024);
    }
  }

  /** A directory of the file system that holds regular files. */
  class Folder {
    var files: map<string, Bytes>

    constructor ()
      ensures files == map[]
    {
      files := map[];
    }

    method Write(name: string, content: Bytes)
      modifies this
      ensures files == old(files)[name := content]
    {
      files := files[name := content];
    }

    method Delete(name: string)
      modifies this
      ensures files == old(files) - {name}
    {
      files := files - {name};
    }
  }

  function Written(files: map<string, Bytes>, vs: seq<Volume>): map<string, Bytes> {
    if vs == [] then files else Written(files, vs[..|vs| - 1])[vs[|vs| - 1].name := vs[|vs| - 1].content]
  }

  class ZipVolumeProcessor {
    const volumeSizeLimit: int
    const codec: Codec

    constructor (limit: int, codec: Codec)
      ensures volumeSizeLimit == limit && this.codec == codec
    {
      volumeSizeLimit := limit;
      this.codec := codec;
    }

    method Pack(src: Source) returns (packet: Bytes)
      ensures packet == codec.zip(EntriesOf(src, FilesOf(src.tree)))
    {
      var files := GetFiles(src.tree);
      var entries := [];
      for i := 0 to |files|
        invariant entries == EntriesOf(src, files)[..i]
      {
        var content := CopyStream(files[i].content);
        entries := entries + [Entry(EntryName(src, files[i]), content)];
      }
      assert EntriesOf(src, files)[..|files|] == EntriesOf(src, files);
      packet := codec.zip(entries);
    }

    /** The loop that cuts the archive. */
    method Cut(name: string, packet: Bytes, dest: Folder) returns (volumes: seq<Volume>)
      requires 0 < volumeSizeLimit < |packet|
      modifies dest
      ensures volumes == VolumesOf(name, packet, volumeSizeLimit)
      ensures dest.files == Written(old(dest.files), volumes)
    {
      hide Pieces;
      var fin := new InputStream(packet);
      var count := CeilOfQuotient(|packet|, volumeSizeLimit);
      PiecesExact(packet, volumeSizeLimit);
      ghost var ps := Pieces(packet, volumeSizeLimit);
      volumes := [];
      for i := 0 to count
        invariant fin.Valid() && fin.data == packet && fresh(fin)
        invariant |volumes| == i && forall j | 0 <= j < i :: volumes[j] == Volume(PieceName(name, j), ps[j])
        invariant ps[i..] == Pieces(packet[fin.position..], volumeSizeLimit)
        invariant dest.files == Written(old(dest.files), volumes)
      {
        ghost var rest := packet[fin.position..];
        PiecesHead(rest, volumeSizeLimit);
        assert ps[i] == ps[i..][0] && ps[i + 1..] == ps[i..][1..];
        var data := fin.Read(volumeSizeLimit);
        assert data == rest[..Min(volumeSizeLimit, |rest|)] && packet[fin.position..] == rest[Min(volumeSizeLimit, |rest|)..];
        dest.Write(PieceName(name, i), data);
        var volume := Volume(PieceName(name, i), data);
        assert (volumes + [volume])[..i] == volumes;
        volumes := volumes + [volume];
      }
    }

    /** Split; None stands for the exception on a file name without a dot. */
    method Split(src: Source, dest: Folder) returns (volumes: Option<seq<Volume>>)
      modifies dest
      ensures volumes.None? <==> VolumeName(src).None?
      ensures volumes.None? ==> dest.files == old(dest.files)
      ensures volumes.Some? ==>
                var name, packet := VolumeName(src).value, codec.zip(EntriesOf(src, FilesOf(src.tree)));
                && volumes.value == VolumesOf(name, packet, volumeSizeLimit)
                && dest.files == (if 0 < volumeSizeLimit < |packet| then Written(old(dest.files)[name + ".zip" := packet], volumes.value) - {name + ".zip"}
                                  else Written(old(dest.files), volumes.value))
    {
      var name := VolumeName(src);
      if name.None? {
        return None;
      }
      var packet := Pack(src);
      dest.Write(name.value + ".zip", packet);
      if 0 < volumeSizeLimit < |packet| {
        var vs := Cut(name.value, packet, dest);
        dest.Delete(name.value + ".zip");
        volumes := Some(vs);
      } else {
        ghost var v := Volume(name.value + ".zip", packet);
        assert [v][..0] == [];
        volumes := Some([Volume(name.value + ".zip", packet)]);
      }
    }

    /** The loop over the sorted volumes. */
    method ReadVolumes(volumes: seq<Volume>) returns (archive: Bytes)
      ensures archive == Concat(Contents(volumes))
    {
      archive := [];
      for i := 0 to |volumes|
        invariant archive == Concat(Contents(volumes[..i]))
      {
        var content := CopyStream(volumes[i].content);
        ConcatSnoc(Contents(volumes[..i]), content);
        assert Contents(volumes[..i + 1]) == Contents(volumes[..i]) + [content];
        archive := archive + content;
      }
      assert volumes[..|volumes|] == volumes;
    }

    /** Join; false stands for the exception of the comparator, before anything is written. */
    method Join(volumes: seq<Volume>, dest: Folder) returns (ok: bool)
      modifies dest
      ensures var joined := Joined(codec, old(dest.files), volumes);
              ok == joined.Some? && dest.files == if ok then joined.value else old(dest.files)
    {
      hide InFront, Comparable;
      var inOrder := volumes;
      if |volumes| > 1 {
        var sorted := codec.sort(volumes);
        if sorted.None? {
          return false;
        }
        inOrder := sorted.value;
      }
      var archive := ReadVolumes(inOrder);
      var entries := codec.unzip(archive);
      assert entries[..0] == [];
      for i := 0 to |entries|
        invariant dest.files == Unpacked(old(dest.files), entries[..i])
      {
        var content := CopyStream(entries[i].content);
        assert entries[..i + 1][..i] == entries[..i];
        dest.Write(entries[i].name, content);
      }
      assert entries[..|entries|] == entries;
      ok := true;
    }
  }

  // Joining.

  function Contents(vs: seq<Volume>): (r: seq<Bytes>)
    ensures |r| == |vs| && forall i | 0 <= i < |vs| :: r[i] == vs[i].content
  {
    seq(|vs|, i requires 0 <= i < |vs| => vs[i].content)
  }

  /** The digits after a position of a name. */
  function DigitsAfter(name: string, dot: int): string
    requires 0 <= dot + 1 <= |name|
  {
    Text.DigitsOf(name[dot + 1..])
  }

  /** The comparator does not throw: both suffixes, cut at the first name's last dot, have digits. */
  predicate Comparable(v: Volume, w: Volume) {
    var dot := Text.LastIndexOf(v.name, '.');
    dot + 1 <= |w.name| && DigitsAfter(v.name, dot) != "" && DigitsAfter(w.name, dot) != ""
  }

  /** The comparator: both names are cut at the last dot of the first. */
  predicate InFront(v: Volume, w: Volume) {
    var dot := Text.LastIndexOf(v.name, '.');
    dot + 1 <= |w.name| && Text.Parse(DigitsAfter(v.name, dot)) <= Text.Parse(DigitsAfter(w.name, dot))
  }

  /** The volumes as they are read; one alone is not sorted. */
  function InOrder(codec: Codec, vs: seq<Volume>): Option<seq<Volume>> {
    if |vs| > 1 then codec.sort(vs) else Some(vs)
  }

  /** What joining volumes makes of the files of a folder. */
  function Joined(codec: Codec, files: map<string, Bytes>, vs: seq<Volume>): Option<map<string, Bytes>> {
    match InOrder(codec, vs)
    case None => None
    case Some(sorted) => Some(Unpacked(files, codec.unzip(Concat(Contents(sorted)))))
  }

  /** The files written for the entries of an archive, later ones over earlier ones. */
  function Unpacked(files: map<string, Bytes>, es: seq<Entry>): map<string, Bytes> {
    if es == [] then files else Unpacked(files, es[..|es| - 1])[es[|es| - 1].name := es[|es| - 1].content]
  }

  lemma {:induction false} ConcatSnoc(pieces: seq<Bytes>, last: Bytes)
    ensures Concat(pieces + [last]) == Concat(pieces) + last
  {
    if pieces == [] {
      assert [last][1..] == [];
    } else {
      assert (pieces + [last])[1..] == pieces[1..] + [last];
      ConcatSnoc(pieces[1..], last);
    }
  }

  /** The number in the name of a piece parses back to its index. */
  lemma PieceIndex(name: string, i: nat, j: nat)
    ensures var v, w := PieceName(name, i), PieceName(name, j);
            var dot := Text.LastIndexOf(v, '.');
            && dot == |name| && dot + 1 <= |w|
            && DigitsAfter(v, dot) == Text.Decimal(i) && DigitsAfter(w, dot) == Text.Decimal(j)
  {
    NumeralSuffix(name, i);
    NumeralSuffix(name, j);
    NoDot(i);
    Text.SeparatorPosition(name, '.', "vol" + Text.Decimal(i));
  }

  lemma NumeralSuffix(name: string, i: nat)
    ensures PieceName(name, i) == name + ['.'] + ("vol" + Text.Decimal(i))
    ensures |name| + 1 <= |PieceName(name, i)| && DigitsAfter(PieceName(name, i), |name|) == Text.Decimal(i)
  {
    var s := name + ['.'] + ("vol" + Text.Decimal(i));
    assert PieceName(name, i) == s;
    assert s[|name| + 1..] == "vol" + Text.Decimal(i);
    DigitsOfSuffix(Text.Decimal(i));
  }

  lemma NoDot(i: nat)
    ensures '.' !in "vol" + Text.Decimal(i)
  {
    var d := Text.Decimal(i);
    forall k | 0 <= k < |"vol" + d| ensures ("vol" + d)[k] != '.' {
      if k >= 3 {
        assert ("vol" + d)[k] == d[k - 3];
      }
    }
  }

  lemma DigitsOfSuffix(s: string)
    requires Text.AllDigits(s)
    ensures Text.DigitsOf("vol" + s) == s
  {
    var a, b, c := "vol" + s, "ol" + s, "l" + s;
    assert a[1..] == b && b[1..] == c && c[1..] == s;
    assert Text.DigitsOf(c) == Text.DigitsOf(s);
    assert Text.DigitsOf(b) == Text.DigitsOf(c);
    assert Text.DigitsOf(a) == Text.DigitsOf(b);
    Text.DigitsOfNumeral(s);
  }

  /** Sorting restores the order of the pieces past .vol9 as well, whatever the listing, and never
      throws on them. */
  lemma SortRestoresPieces(name: string, packet: Bytes, limit: int, codec: Codec, listing: seq<Volume>)
    requires Sorts(codec) && multiset(listing) == multiset(VolumesOf(name, packet, limit))
    ensures InOrder(codec, listing) == Some(VolumesOf(name, packet, limit))
  {
    hide VolumesOf, Comparable, InFront, Listing.Sort;
    var vs := VolumesOf(name, packet, limit);
    if |vs| > 1 {
      PiecesNumbered(name, packet, limit);
    }
    SortRestoresNumbered(name, vs, codec, listing);
  }

  lemma PiecesNumbered(name: string, packet: Bytes, limit: int)
    requires |VolumesOf(name, packet, limit)| > 1
    ensures forall i | 0 <= i < |VolumesOf(name, packet, limit)| :: VolumesOf(name, packet, limit)[i].name == PieceName(name, i)
  {
    hide CeilOfQuotient, Pieces;
  }

  lemma SortRestoresNumbered(name: string, vs: seq<Volume>, codec: Codec, listing: seq<Volume>)
    requires Sorts(codec) && multiset(listing) == multiset(vs)
    requires |vs| > 1 ==> forall i | 0 <= i < |vs| :: vs[i].name == PieceName(name, i)
    ensures InOrder(codec, listing) == Some(vs)
  {
    hide Comparable, InFront, Listing.Sort;
    Listing.SameElements(listing, vs);
    if |listing| <= 1 {
      assert |listing| == 1 ==> listing[0] in vs;
      assert listing == vs;
    } else {
      PiecesCompare(name, vs);
      ByIndex(vs);
      ListedSortable(listing, vs);
      Listing.SortRestores(listing, vs, InFront);
    }
  }

  lemma ListedSortable(listing: seq<Volume>, vs: seq<Volume>)
    requires forall v :: v in listing <==> v in vs
    requires (forall v, w | v in vs && w in vs :: Comparable(v, w)) && Listing.Orders(InFront, vs) && Listing.Antisymmetric(InFront, vs)
    ensures Sortable(listing)
  {
    hide Comparable, InFront;
    forall i, j | 0 <= i < |listing| && 0 <= j < |listing| && InFront(listing[i], listing[j]) && InFront(listing[j], listing[i])
      ensures listing[i] == listing[j]
    {
      assert listing[i] in listing && listing[j] in listing;
      var k :| 0 <= k < |vs| && vs[k] == listing[i];
      var l :| 0 <= l < |vs| && vs[l] == listing[j];
    }
  }

  /** Any two pieces can be compared, and compare as their indices do. */
  lemma PiecesCompare(name: string, vs: seq<Volume>)
    requires forall i | 0 <= i < |vs| :: vs[i].name == PieceName(name, i)
    ensures forall i, j | 0 <= i < |vs| && 0 <= j < |vs| :: Comparable(vs[i], vs[j]) && (InFront(vs[i], vs[j]) <==> i <= j)
  {
    forall i, j | 0 <= i < |vs| && 0 <= j < |vs| ensures Comparable(vs[i], vs[j]) && (InFront(vs[i], vs[j]) <==> i <= j) {
      PieceIndex(name, i, j);
      Text.ParseDecimal(i);
      Text.ParseDecimal(j);
    }
  }

  lemma ByIndex(vs: seq<Volume>)
    requires forall i, j | 0 <= i < |vs| && 0 <= j < |vs| :: InFront(vs[i], vs[j]) <==> i <= j
    ensures Listing.Orders(InFront, vs) && Listing.SortedBy(vs, InFront) && Listing.Antisymmetric(InFront, vs)
  {
  }

  lemma ContentsOfVolumes(name: string, packet: Bytes, limit: int)
    ensures Concat(Contents(VolumesOf(name, packet, limit))) == packet
  {
    var vs := VolumesOf(name, packet, limit);
    if 0 < limit < |packet| {
      PiecesExact(packet, limit);
      assert Contents(vs) == Pieces(packet, limit);
    } else {
      assert Contents(vs) == [packet];
      assert Concat([packet]) == packet + Concat([packet][1..]);
    }
  }

  // A split that is stopped.

  /** What a split leaves behind that fails while cutting: the first m pieces and, if the next one
      was begun, what was written of it; the archive is deleted. */
  ghost predicate Stopped(name: string, packet: Bytes, limit: int, m: nat, left: seq<Volume>) {
    && 0 < limit < |packet|
    && var vs := VolumesOf(name, packet, limit);
       && m < |vs|
       && (left == vs[..m] || exists k: nat :: k <= |vs[m].content| && left == vs[..m] + [Volume(vs[m].name, vs[m].content[..k])])
  }

  lemma ConcatStep(x: Bytes, rest: seq<Bytes>)
    ensures Concat([x] + rest) == x + Concat(rest)
  {
    assert ([x] + rest)[1..] == rest;
  }

  lemma {:induction false} ConcatParts(a: seq<Bytes>, b: seq<Bytes>)
    ensures Concat(a + b) == Concat(a) + Concat(b)
  {
    if a == [] {
      assert a + b == b;
    } else {
      hide Concat;
      ConcatParts(a[1..], b);
      ConcatStep(a[0], a[1..]);
      ConcatStep(a[0], a[1..] + b);
      assert a == [a[0]] + a[1..];
      assert a + b == [a[0]] + (a[1..] + b);
      Regroup(a[0], Concat(a[1..]), Concat(b));
    }
  }

  lemma Regroup(x: Bytes, y: Bytes, z: Bytes)
    ensures x + (y + z) == x + y + z
  {
  }

  lemma ConcatAround(cs: seq<Bytes>, m: nat)
    requires m < |cs|
    ensures Concat(cs) == Concat(cs[..m]) + (cs[m] + Concat(cs[m + 1..]))
  {
    assert cs == cs[..m] + cs[m..] && cs[m..][0] == cs[m] && cs[m..][1..] == cs[m + 1..];
    ConcatParts(cs[..m], cs[m..]);
  }

  lemma ConcatOne(x: Bytes)
    ensures Concat([x]) == x
  {
    assert [x][1..] == [];
  }

  /** All pieces before the m-th, and a part of it or nothing. */
  lemma LeftContents(vs: seq<Volume>, m: nat, part: Bytes, left: seq<Volume>)
    requires m < |vs| && forall i | 0 <= i < |vs| :: |vs[i].content| > 0
    requires part <= vs[m].content
    requires (left == vs[..m] && part == []) || left == vs[..m] + [Volume(vs[m].name, part)]
    ensures Concat(Contents(left)) <= Concat(Contents(vs))
    ensures Concat(Contents(left)) == Concat(Contents(vs)) <==> left == vs
  {
    var cs := Contents(vs);
    ConcatAround(cs, m);
    assert Contents(vs[..m]) == cs[..m];
    if left == vs[..m] {
      assert part == [];
      assert |Concat(cs)| >= |Concat(cs[..m])| + |cs[m]|;
    } else {
      assert Contents(left) == cs[..m] + [part];
      ConcatParts(cs[..m], [part]);
      ConcatOne(part);
      if m + 1 < |vs| {
        assert |Concat(cs[m + 1..])| >= |cs[m + 1]|;
      } else if part == vs[m].content {
        assert left == vs;
      }
    }
  }

  /** What is left is taken for a package of its own: its volumes are put in order and joined to a
      proper prefix of the archive, unless nothing but the end of the split was missed. */
  lemma StoppedSplit(name: string, packet: Bytes, limit: int, codec: Codec, m: nat, left: seq<Volume>, listing: seq<Volume>)
    requires Sorts(codec) && Stopped(name, packet, limit, m, left) && multiset(listing) == multiset(left)
    ensures InOrder(codec, listing) == Some(left)
    ensures Concat(Contents(left)) <= packet
    ensures Concat(Contents(left)) == packet <==> left == VolumesOf(name, packet, limit)
  {
    hide CeilOfQuotient, Pieces, InOrder;
    var vs := VolumesOf(name, packet, limit);
    SortRestoresNumbered(name, left, codec, listing);
    ContentsOfVolumes(name, packet, limit);
    PiecesExact(packet, limit);
    hide Concat, VolumesOf;
    if left == vs[..m] {
      LeftContents(vs, m, [], left);
    } else {
      LeftContents(vs, m, left[m].content, left);
    }
  }

  lemma {:induction false} UnpackedKeys(files: map<string, Bytes>, es: seq<Entry>, n: string)
    ensures n in Unpacked(files, es) <==> n in files || exists i :: 0 <= i < |es| && es[i].name == n
  {
    if es != [] {
      UnpackedKeys(files, es[..|es| - 1], n);
    }
  }

  lemma {:induction false} UnpackedValues(files: map<string, Bytes>, es: seq<Entry>, i: nat)
    requires forall i, j | 0 <= i < j < |es| :: es[i].name != es[j].name
    requires i < |es|
    ensures es[i].name in Unpacked(files, es) && Unpacked(files, es)[es[i].name] == es[i].content
  {
    if i < |es| - 1 {
      UnpackedValues(files, es[..|es| - 1], i);
    }
  }

  lemma UnpackedExact(es: seq<Entry>)
    requires forall i, j | 0 <= i < j < |es| :: es[i].name != es[j].name
    ensures var r := Unpacked(map[], es);
            && (forall n :: n in r <==> exists i :: 0 <= i < |es| && es[i].name == n)
            && (forall i | 0 <= i < |es| :: r[es[i].name] == es[i].content)
  {
    hide Unpacked;
    forall n ensures n in Unpacked(map[], es) <==> exists i :: 0 <= i < |es| && es[i].name == n {
      UnpackedKeys(map[], es, n);
    }
    forall i | 0 <= i < |es| ensures es[i].name in Unpacked(map[], es) && Unpacked(map[], es)[es[i].name] == es[i].content {
      UnpackedValues(map[], es, i);
    }
  }

  /** The files of a source: the content of each file under its entry name. */
  ghost predicate IsFileOf(src: Source, name: string, content: Bytes) {
    exists p :: Lookup(src.tree, p) == Some(content) && name == if p == [] then src.name else PathName(p)
  }

  lemma {:induction false} LookupPlain(t: Tree, p: seq<string>)
    requires WellNamed(t) && Lookup(t, p).Some?
    ensures PlainPath(p) && (t.Directory? ==> p != [])
    decreases |p|
  {
    if p != [] {
      var c :| c in t.entries && c.name == p[0] && Lookup(t, p) == Lookup(c.tree, p[1..]);
      LookupPlain(c.tree, p[1..]);
      assert p == [p[0]] + p[1..];
    }
  }

  lemma EntryNamesDistinct(src: Source)
    requires WellNamed(src.tree)
    ensures var es := EntriesOf(src, FilesOf(src.tree));
            && (forall i, j | 0 <= i < j < |es| :: es[i].name != es[j].name)
            && (forall e :: e in es <==> IsFileOf(src, e.name, e.content))
  {
    var fs := FilesOf(src.tree);
    var es := EntriesOf(src, fs);
    FilesExact(src.tree);
    forall i | 0 <= i < |fs| ensures Lookup(src.tree, fs[i].path) == Some(fs[i].content) && PlainPath(fs[i].path)
      ensures fs[i].path == [] <==> src.tree.Regular?
      ensures es[i].name == if fs[i].path == [] then src.name else PathName(fs[i].path) {
      assert FileRef(fs[i].path, fs[i].content) in fs;
      LookupPlain(src.tree, fs[i].path);
      if fs[i].path != [] {
        PathNameSplits(fs[i].path);
      }
    }
    forall i, j | 0 <= i < j < |es| ensures es[i].name != es[j].name {
      if es[i].name == es[j].name {
        if src.tree.Directory? {
          PathNameInjective(fs[i].path, fs[j].path);
        }
      }
    }
    forall e ensures e in es <==> IsFileOf(src, e.name, e.content) {
      if e in es {
        var i :| 0 <= i < |es| && es[i] == e;
        assert Lookup(src.tree, fs[i].path) == Some(e.content);
      }
      if IsFileOf(src, e.name, e.content) {
        var p :| Lookup(src.tree, p) == Some(e.content) && e.name == if p == [] then src.name else PathName(p);
        assert FileRef(p, e.content) in fs;
        var i :| 0 <= i < |fs| && fs[i] == FileRef(p, e.content);
        assert es[i] == e;
      }
    }
  }

  /** Split, then Join of the volumes in any order into an empty folder: exactly the files of
      the source come back, for every limit. */
  lemma JoinInvertsSplit(src: Source, codec: Codec, limit: int, listing: seq<Volume>)
    requires WellNamed(src.tree) && Inverse(codec) && Sorts(codec) && VolumeName(src).Some?
    requires multiset(listing) == multiset(VolumesOf(VolumeName(src).value, codec.zip(EntriesOf(src, FilesOf(src.tree))), limit))
    ensures var joined := Joined(codec, map[], listing);
            joined.Some? && forall n, b :: n in joined.value && joined.value[n] == b <==> IsFileOf(src, n, b)
  {
    hide Sorts, VolumesOf;
    var es := EntriesOf(src, FilesOf(src.tree));
    var packet := codec.zip(es);
    SortRestoresPieces(VolumeName(src).value, packet, limit, codec, listing);
    ContentsOfVolumes(VolumeName(src).value, packet, limit);
    EntryNamesDistinct(src);
    UnpackedExact(es);
    var joined := Unpacked(map[], es);
    forall n, b ensures n in joined && joined[n] == b <==> IsFileOf(src, n, b) {
      if n in joined && joined[n] == b {
        var i :| 0 <= i < |es| && es[i].name == n;
        assert es[i] == Entry(n, b) && es[i] in es;
      }
      if IsFileOf(src, n, b) {
        assert Entry(n, b) in es;
        var i :| 0 <= i < |es| && es[i] == Entry(n, b);
      }
    }
  }
}
