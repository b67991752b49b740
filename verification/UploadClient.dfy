/** The client side of an upload: SimpleSyncManager's files below out/. */
module UploadClient {
  import opened Wrappers
  import opened ZipVolumes
  import opened ChangeFiles
  import opened UploadServer
  import opened UploadRuns
  import Listing

  function ChildrenOf(names: seq<string>, files: Files): (r: seq<Child>)
    requires forall n | n in names :: n in files
    ensures |r| == |names| && forall i | 0 <= i < |names| :: r[i] == Child(names[i], Regular(files[names[i]]))
  {
    seq(|names|, i requires 0 <= i < |names| => Child(names[i], Regular(files[names[i]])))
  }

  lemma {:induction false} WrittenBeside(files: Files, vs: seq<Volume>, n: string, content: Bytes)
    requires n !in files && forall i | 0 <= i < |vs| :: vs[i].name != n
    ensures Written(files[n := content], vs) - {n} == Written(files, vs)
    ensures n !in Written(files, vs)
  {
    if vs == [] {
      assert files[n := content] - {n} == files;
    } else {
      WrittenBeside(files, vs[..|vs| - 1], n, content);
      var v, a, b := vs[|vs| - 1], Written(files[n := content], vs[..|vs| - 1]), Written(files, vs[..|vs| - 1]);
      assert a[v.name := v.content] - {n} == (a - {n})[v.name := v.content];
    }
  }

  lemma PieceIsNotTheArchive(name: string, packet: Bytes, limit: int)
    requires 0 < limit < |packet|
    ensures forall i | 0 <= i < |VolumesOf(name, packet, limit)| :: VolumesOf(name, packet, limit)[i].name != name + ".zip"
  {
    forall i | 0 <= i < |VolumesOf(name, packet, limit)| ensures PieceName(name, i) != name + ".zip" {
      assert PieceName(name, i)[|name| + 1] == 'v' && (name + ".zip")[|name| + 1] == 'z';
    }
  }

  /** What a split leaves in an empty folder: the volumes alone. */
  lemma SplitLeaves(packet: Bytes, limit: int, files: Files)
    requires var vs := VolumesOf("changesets", packet, limit);
             files == if 0 < limit < |packet| then Written(map["changesets" + ".zip" := packet], vs) - {"changesets" + ".zip"} else Written(map[], vs)
    ensures files == FilesAt(VolumesOf("changesets", packet, limit))
  {
    if 0 < limit < |packet| {
      hide Written, VolumesOf, CeilOfQuotient;
      PieceIsNotTheArchive("changesets", packet, limit);
      WrittenBeside(map[], VolumesOf("changesets", packet, limit), "changesets" + ".zip", packet);
    }
  }

  lemma ChildrenList(names: seq<string>, files: Files)
    requires Listing.Distinct(names) && forall n :: n in names <==> n in files
    ensures IsListingOf(ChildrenOf(names, files), files)
  {
    forall n | n in files ensures exists i :: 0 <= i < |names| && ChildrenOf(names, files)[i].name == n {
      var i :| 0 <= i < |names| && names[i] == n;
      assert ChildrenOf(names, files)[i].name == n;
    }
  }

  lemma CutOf(cfg: Config, units: seq<DataUnit>, children: seq<Child>, limit: int)
    requires IsListingOf(children, Saved(cfg.json, units))
    ensures IsCut(cfg, Package(units, FilesAt(VolumesOf("changesets", ArchiveOf(cfg, children), limit))))
  {
    hide IsListingOf, VolumesOf, Written, Saved;
  }

  class SimpleSyncManager {
    const cfg: Config
    const limit: int
    var volumes: Option<Files>
    var rest: Option<seq<string>>

    constructor (cfg: Config, limit: int)
      ensures this.cfg == cfg && this.limit == limit && volumes == None && rest == None
    {
      this.cfg := cfg;
      this.limit := limit;
      volumes := None;
      rest := None;
    }

    /** CreateOutgoingPackage: nothing while a package is there; else the changes, then the
        auxiliary data, are saved, packed and cut. */
    method CreateOutgoingPackage(changes: seq<DataUnit>, auxData: seq<DataUnit>)
      requires Lists(cfg.list)
      modifies this`volumes
      ensures old(volumes).Some? ==> volumes == old(volumes)
      ensures old(volumes).None? && changes + auxData == [] ==> volumes == Some(map[])
      ensures old(volumes).None? && changes + auxData != [] ==>
                volumes.Some? && IsCut(cfg, Package(changes + auxData, volumes.value))
    {
      if volumes.Some? {
        return;
      }
      var outbox := new Outbox(cfg.json);
      var k := outbox.CreateOutgoingPackage(changes, auxData);
      if k == 0 {
        volumes := Some(map[]);
        return;
      }
      var names := cfg.list(outbox.changesets);
      ListedOnce(cfg, outbox.changesets);
      var children := ChildrenOf(names, outbox.changesets);
      var dest := new Folder();
      var processor := new ZipVolumeProcessor(limit, cfg.codec);
      hide Written, IsListingOf, VolumesOf, FilesOf, EntriesOf, Saved, IsCut;
      var split := processor.Split(Source("changesets", Directory(children)), dest);
      volumes := Some(dest.files);
      ChildrenList(names, outbox.changesets);
      SplitLeaves(ArchiveOf(cfg, children), limit, dest.files);
      CutOf(cfg, changes + auxData, children, limit);
    }

    /** OutgoingVolumes: those listed in .rest that exist, or all. */
    method OutgoingVolumes() returns (vs: Option<seq<string>>)
      ensures vs == if volumes.None? then None else Some(VolumesToSend(cfg, volumes.value, rest))
    {
      if volumes.None? {
        return None;
      }
      var kept := [];
      if rest.Some? {
        for i := 0 to |rest.value|
          invariant kept == Existing(rest.value[..i], volumes.value)
        {
          assert rest.value[..i + 1][..i] == rest.value[..i];
          if rest.value[i] in volumes.value {
            kept := kept + [rest.value[i]];
          }
        }
        assert rest.value[..|rest.value|] == rest.value;
      }
      vs := Some(if |kept| > 0 then kept else cfg.list(volumes.value));
    }
  }
}
