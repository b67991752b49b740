/** What becomes of references whose columns are migrated because the key of the class they refer to
    is. The copy of the referring class finds the new key of the row a reference referred to by its
    old key, which works where the copy of the class referred to has run before: in the order in
    which the classes happen to be planned. Where it has not, every reference is lost. */
module PlanReferences {
  import opened Wrappers
  import opened PropertyTypes
  import opened Database
  import opened Batches
  import opened DeployPlan
  import opened PlanShape
  import opened PlanColumns
  import opened PlanStages
  import opened PlanRuns
  import opened PlanFits
  import opened PlanParts
  import opened PlanExecutes
  import opened PlanData
  import opened PlanBackfill
  import Listing

  // The place of a copy in the data part.

  /** The copy of a class. */
  function CopyOf(ctx: Deployment, c: ClassDef): Change {
    CopyData(Table(ctx, c), AllCopies(ctx, c, Properties(ctx, c)))
  }

  predicate Copies(ctx: Deployment, c: ClassDef) {
    Table(ctx, c) in ctx.db.tables && AllCopies(ctx, c, Properties(ctx, c)) != []
  }

  /** In a list of class names, a is before b. */
  ghost predicate Precedes(names: seq<string>, a: string, b: string) {
    exists i, j :: 0 <= i < j < |names| && names[i] == a && names[j] == b
  }

  lemma CopyInClass(ctx: Deployment, c: ClassDef) returns (j: nat)
    requires Copies(ctx, c)
    ensures OnceAt(ClassChanges(ctx, c, Properties(ctx, c), DataMigrate), CopyOf(ctx, c), j)
  {
    hide Properties, AllPropertyChanges, AllCopies;
    var own, b := AllPropertyChanges(ctx, c, Properties(ctx, c), DataMigrate), CopyOf(ctx, c);
    assert ClassChanges(ctx, c, Properties(ctx, c), DataMigrate) == own + [b];
    forall ch | ch in own ensures ch.Backfill? {
      OnlyBackfills(ctx, c, ch);
    }
    j := |own|;
    forall l | 0 <= l < |own| ensures own[l] != b {
      assert own[l] in own;
    }
  }

  lemma OnlyBackfills(ctx: Deployment, c: ClassDef, ch: Change)
    requires ch in AllPropertyChanges(ctx, c, Properties(ctx, c), DataMigrate)
    ensures ch.Backfill?
  {
    hide Properties, Script, SituationOf;
    var pm := FromProperty(ctx, c, Properties(ctx, c), DataMigrate, ch);
  }

  lemma CopyTable(ctx: Deployment, c: ClassDef)
    ensures CopyOf(ctx, c).table == Table(ctx, c)
  {
  }

  lemma NotInOther(ctx: Deployment, c: ClassDef, d: ClassDef)
    requires ValidModel(ctx) && IsClass(ctx, c) && IsClass(ctx, d) && c != d
    ensures CopyOf(ctx, c) !in ClassChanges(ctx, d, Properties(ctx, d), DataMigrate)
  {
    hide ValidModel, Properties, ClassChanges, CopyOf;
    CopyTable(ctx, c);
    if CopyOf(ctx, c) in ClassChanges(ctx, d, Properties(ctx, d), DataMigrate) {
      ClassKind(ctx, d, Properties(ctx, d), DataMigrate, CopyOf(ctx, c));
      SameTable(ctx, c, d);
    }
  }

  lemma NotElsewhere(ctx: Deployment, names: seq<string>, c: ClassDef)
    requires ValidModel(ctx) && IsClass(ctx, c) && c.name !in names && forall n | n in names :: n in ctx.classes
    ensures CopyOf(ctx, c) !in BucketChanges(ctx, names, DataMigrate)
  {
    hide ValidModel, Properties, ClassChanges, BucketChanges, CopyOf;
    if CopyOf(ctx, c) in BucketChanges(ctx, names, DataMigrate) {
      CopyTable(ctx, c);
      OtherClass(ctx, names, c, CopyOf(ctx, c));
    }
  }

  /** The copy of a class occurs once. */
  lemma {:induction false} CopyPlace(ctx: Deployment, names: seq<string>, c: ClassDef) returns (j: nat)
    requires ValidModel(ctx) && IsClass(ctx, c) && Copies(ctx, c)
    requires Listing.Distinct(names) && c.name in names && forall n | n in names :: n in ctx.classes
    ensures OnceAt(BucketChanges(ctx, names, DataMigrate), CopyOf(ctx, c), j)
    ensures names[|names| - 1] == c.name ==> j >= |BucketChanges(ctx, names[..|names| - 1], DataMigrate)|
  {
    hide ValidModel, Properties, ClassChanges, CopyOf, Copies, OnceAt;
    var front, n, b := names[..|names| - 1], names[|names| - 1], CopyOf(ctx, c);
    var d := ctx.classes[n];
    assert Grounded(ctx, n);
    var before, here := BucketChanges(ctx, front, DataMigrate), ClassChanges(ctx, d, Properties(ctx, d), DataMigrate);
    if n == c.name {
      j := CopyInClass(ctx, c);
      NotElsewhere(ctx, front, c);
      OnceAfter(before, here, [], b, j);
      assert before + here + [] == before + here;
      j := |before| + j;
    } else {
      assert c.name in front;
      j := CopyPlace(ctx, front, c);
      NotInOther(ctx, c, d);
      OnceAfter([], before, here, b, j);
      assert [] + before + here == before + here;
    }
  }

  /** The copies of two classes are in the order of the classes. */
  lemma {:induction false} CopyOrder(ctx: Deployment, names: seq<string>, c: ClassDef, d: ClassDef) returns (i: nat, j: nat)
    requires ValidModel(ctx) && IsClass(ctx, c) && IsClass(ctx, d) && Copies(ctx, c) && Copies(ctx, d)
    requires Listing.Distinct(names) && (forall n | n in names :: n in ctx.classes) && Precedes(names, c.name, d.name)
    ensures OnceAt(BucketChanges(ctx, names, DataMigrate), CopyOf(ctx, c), i)
    ensures OnceAt(BucketChanges(ctx, names, DataMigrate), CopyOf(ctx, d), j)
    ensures i < j
  {
    hide ValidModel, Properties, ClassChanges, CopyOf, Copies;
    var front, n := names[..|names| - 1], names[|names| - 1];
    var e := ctx.classes[n];
    assert Grounded(ctx, n);
    var before, here := BucketChanges(ctx, front, DataMigrate), ClassChanges(ctx, e, Properties(ctx, e), DataMigrate);
    assert [] + before + here == before + here;
    var a, z :| 0 <= a < z < |names| && names[a] == c.name && names[z] == d.name;
    assert front[a] == c.name && c != d;
    NotInOther(ctx, c, e);
    if n == d.name {
      i := CopyPlace(ctx, front, c);
      j := CopyPlace(ctx, names, d);
      OnceAfter([], before, here, CopyOf(ctx, c), i);
    } else {
      assert front[z] == d.name;
      i, j := CopyOrder(ctx, front, c, d);
      NotInOther(ctx, d, e);
      OnceAfter([], before, here, CopyOf(ctx, c), i);
      OnceAfter([], before, here, CopyOf(ctx, d), j);
    }
  }

  // What the copy of a reference finds.

  /** pm is a reference of class c whose column is migrated, followed by the key of class d, which is
      migrated as well. */
  ghost predicate Follows(ctx: Deployment, c: ClassDef, pm: PropertyMeta, d: ClassDef, key: PropertyMeta) {
    && IsProperty(ctx, c, pm) && Migrates(ctx, c, pm) && pm.kind == REFERENCE
    && IsClass(ctx, d) && d.name == pm.refClass && KeyProperty(ctx, d) == Some(key) && Scalar(key)
    && Followed(ctx, c, pm) == Some(ctx.settings.naming.column(key.name))
  }

  /** The key of a followed class is migrated by every plan that runs through. */
  lemma FollowedKeyMigrates(ctx: Deployment, parts: seq<seq<Change>>, engine: Engine, c: ClassDef, pm: PropertyMeta, d: ClassDef, key: PropertyMeta)
    requires Runs(ctx, parts, engine) && Follows(ctx, c, pm, d, key)
    ensures IsProperty(ctx, d, key) && Migrates(ctx, d, key) && IsRoot(ctx, d)
    ensures Ref(ctx, d, key) == ColRef(Table(ctx, d), ctx.settings.naming.column(key.name)) && Deployed(ctx, pm) == key
  {
    hide ValidModel, Emission, Run, Flatten, Properties, Renamed, Deployable, Followed, KeyProperty, SituationOf;
    PartCount(ctx, parts, engine);
    assert parts[..20] == parts;
    ReferencesMustBeReady(ctx, parts, engine);
    var e, q := FollowedClass(ctx, c, pm);
    assert e == d;
    OwnKeyColumn(ctx, d, q, key);
  }

  /** A property whose column is called like the key column is the key, of a class without ancestor. */
  lemma OwnKeyColumn(ctx: Deployment, d: ClassDef, q: PropertyMeta, key: PropertyMeta)
    requires ValidModel(ctx) && IsProperty(ctx, d, q) && KeyProperty(ctx, d) == Some(key)
    requires ColumnName(ctx, q) == ctx.settings.naming.column(key.name)
    ensures q == key && IsRoot(ctx, d)
  {
    hide Properties, KeyDeclaredOnce, Resolvable, SuffixIsNew, WellFormed, KeysResolve, KeyNamesApart, OutsidersApart, PropertyNames;
    ClassFacts(ctx, d);
    assert q.name == key.name;
  }

  /** The assignment that fills a followed reference. */
  function ReferenceCopy(ctx: Deployment, pm: PropertyMeta, d: ClassDef, key: PropertyMeta): Copy {
    var n := ctx.settings.naming;
    Copy(n.column(pm.name), Saved(ctx, n.column(pm.name)), None,
         Some(Lookup(Table(ctx, d), n.column(key.name), Saved(ctx, n.column(key.name)))))
  }

  lemma ReferenceCopied(ctx: Deployment, c: ClassDef, pm: PropertyMeta, d: ClassDef, key: PropertyMeta) returns (m: nat)
    requires ValidModel(ctx) && Follows(ctx, c, pm, d, key) && Deployed(ctx, pm) == key
    ensures Copies(ctx, c) && m < |AllCopies(ctx, c, Properties(ctx, c))|
    ensures AllCopies(ctx, c, Properties(ctx, c))[m] == ReferenceCopy(ctx, pm, d, key)
    ensures Ref(ctx, c, pm) == ColRef(Table(ctx, c), ctx.settings.naming.column(pm.name))
  {
    hide ValidModel, Properties, AllCopies, Followed, KeyProperty, Deployed;
    var ps, cp := Properties(ctx, c), ReferenceCopy(ctx, pm, d, key);
    assert PropertyCopies(ctx, c, pm) == [cp];
    ToCopies(ctx, c, ps, pm, cp);
    m :| 0 <= m < |AllCopies(ctx, c, ps)| && AllCopies(ctx, c, ps)[m] == cp;
    MigratedTable(ctx, c, pm);
    ReferenceColumn(ctx, c, pm);
  }

  lemma KeyCopied(ctx: Deployment, d: ClassDef, key: PropertyMeta) returns (m: nat)
    requires ValidModel(ctx) && IsProperty(ctx, d, key) && Migrates(ctx, d, key) && Scalar(key)
    ensures Copies(ctx, d) && m < |AllCopies(ctx, d, Properties(ctx, d))| && Ref(ctx, d, key) in ctx.db.columns
    ensures var k, cp := Ref(ctx, d, key), AllCopies(ctx, d, Properties(ctx, d))[m];
            && cp.target == k.column && cp.source == Saved(ctx, k.column) && cp.find.None?
            && cp.cast == ctx.settings.rules.cast(key, Deployed(ctx, key), ctx.db.columns[k].info.dataType)
  {
    hide ValidModel, Properties, AllCopies, Deployed, SituationOf;
    var ps := Properties(ctx, d);
    MigratedCopy(ctx, d, key);
    var cp := PropertyCopies(ctx, d, key)[0];
    ToCopies(ctx, d, ps, key, cp);
    m :| 0 <= m < |AllCopies(ctx, d, ps)| && AllCopies(ctx, d, ps)[m] == cp;
    MigratedTable(ctx, d, key);
  }

  // The data part, up to one of its changes.

  lemma DataPart(ctx: Deployment, parts: seq<seq<Change>>, engine: Engine)
    requires Runs(ctx, parts, engine)
    ensures |parts| == 20 && parts[7] == BucketChanges(ctx, ctx.order, DataMigrate)
    ensures Run(engine, ctx.db, Flatten(parts[..7])).Some? && WellFormed(After(ctx, parts, engine, 7))
    ensures Run(engine, After(ctx, parts, engine, 7), parts[7]).Some?
    ensures forall k :: !Removing(parts[7], k)
  {
    hide ValidModel, BucketChanges, Run, Flatten, Removing, DropList;
    PartCount(ctx, parts, engine);
    StageOf(ctx, parts, engine, 7);
    forall k ensures !Removing(parts[7], k) {
      if Removing(parts[7], k) {
        PartRemoves(ctx, parts, 7, k);
      }
    }
    DataBucket(ctx, parts);
  }

  lemma DataBucket(ctx: Deployment, parts: seq<seq<Change>>)
    requires Emission(ctx, parts)
    ensures |parts| == 20 && parts[7] == BucketChanges(ctx, ctx.order, DataMigrate)
  {
    hide BucketChanges;
    assert !ByRelation(Emitted()[7]) && Emitted()[7] == DataMigrate;
  }

  /** The database before the j-th change of the data part. */
  ghost function Amid(ctx: Deployment, parts: seq<seq<Change>>, engine: Engine, j: nat): Option<Schema>
    requires |parts| == 20 && j <= |parts[7]| && WellFormed(ctx.db)
    requires Run(engine, ctx.db, Flatten(parts[..7])).Some? && WellFormed(After(ctx, parts, engine, 7))
  {
    Run(engine, After(ctx, parts, engine, 7), parts[7][..j])
  }

  lemma AmidRuns(ctx: Deployment, parts: seq<seq<Change>>, engine: Engine, j: nat)
    requires Runs(ctx, parts, engine) && |parts| == 20 && j <= |parts[7]|
    requires Run(engine, ctx.db, Flatten(parts[..7])).Some? && WellFormed(After(ctx, parts, engine, 7))
    ensures Amid(ctx, parts, engine, j).Some?
    ensures forall k :: !Removing(parts[7][..j], k)
    ensures forall k | !Writing(parts[7], k) :: !Writing(parts[7][..j], k)
  {
    hide Runs, Run, Flatten, Removing, Writing;
    PartCount(ctx, parts, engine);
    DataPart(ctx, parts, engine);
    var s := parts[7];
    assert s == s[..j] + s[j..];
    RunConcat(engine, After(ctx, parts, engine, 7), s[..j], s[j..]);
    forall k ensures !Removing(s[..j], k) && (!Writing(s, k) ==> !Writing(s[..j], k)) {
      PrefixMoves(s, j, k);
    }
  }

  lemma PrefixMoves(s: seq<Change>, j: nat, k: ColRef)
    requires j <= |s|
    ensures Removing(s[..j], k) ==> Removing(s, k)
    ensures Writing(s[..j], k) ==> Writing(s, k)
  {
    hide Removes, Writes;
    assert forall l | 0 <= l < j :: s[..j][l] == s[l];
  }

  /** The saved cells stay as they are. */
  lemma SavedAmid(ctx: Deployment, parts: seq<seq<Change>>, engine: Engine, k: ColRef, j: nat)
    requires Runs(ctx, parts, engine) && k in ctx.db.columns && Renamed(ctx, k) && |parts| == 20 && j <= |parts[7]|
    requires Run(engine, ctx.db, Flatten(parts[..7])).Some? && WellFormed(After(ctx, parts, engine, 7))
    ensures Amid(ctx, parts, engine, j).Some? && SavedRef(ctx, k) in Amid(ctx, parts, engine, j).value.columns
    ensures Amid(ctx, parts, engine, j).value.columns[SavedRef(ctx, k)].cells == ctx.db.columns[k].cells
  {
    hide ValidModel, Emission, Run, Flatten, Renamed, SideRenamed, Written, Removing, Writing;
    OldCellsSaved(ctx, parts, engine, k);
    AmidRuns(ctx, parts, engine, j);
    HomeIsSafe(ctx, k);
    if Writing(parts[7], SavedRef(ctx, k)) {
      PartWrites(ctx, parts, 7, SavedRef(ctx, k));
    }
    RunKeeps(engine, After(ctx, parts, engine, 7), parts[7][..j], SavedRef(ctx, k));
  }

  /** After its copy the new key column holds the old keys, cast. */
  lemma KeyAfterCopy(ctx: Deployment, parts: seq<seq<Change>>, engine: Engine, d: ClassDef, key: PropertyMeta, i: nat, j: nat)
    requires Runs(ctx, parts, engine) && |parts| == 20 && i < j <= |parts[7]| && parts[7][i] == CopyOf(ctx, d)
    requires Run(engine, ctx.db, Flatten(parts[..7])).Some? && WellFormed(After(ctx, parts, engine, 7))
    requires IsProperty(ctx, d, key) && Migrates(ctx, d, key) && Scalar(key)
    ensures var k := Ref(ctx, d, key);
            && Amid(ctx, parts, engine, j).Some? && k in Amid(ctx, parts, engine, j).value.columns && k in ctx.db.columns
            && Amid(ctx, parts, engine, j).value.columns[k].cells ==
                 CopyCells(ctx.db.columns[k].cells, ctx.settings.rules.cast(key, Deployed(ctx, key), ctx.db.columns[k].info.dataType), engine)
  {
    hide ValidModel, Emission, Run, Flatten, Renamed, SideRenamed, Written, Removing, Writing, Properties, BucketChanges;
    hide SituationOf, Deployed, Writes;
    var k, cs, s := Ref(ctx, d, key), AllCopies(ctx, d, Properties(ctx, d)), parts[7];
    var m := KeyCopied(ctx, d, key);
    hide AllCopies;
    CopiesDistinct(ctx, d, cs);
    AmidRuns(ctx, parts, engine, j);
    RenamedRef(ctx, d, key);
    OldCellsSaved(ctx, parts, engine, k);
    HomeIsSafe(ctx, k);
    if Writing(s, SavedRef(ctx, k)) {
      PartWrites(ctx, parts, 7, SavedRef(ctx, k));
    }
    forall l | 0 <= l < j && k in Writes(s[..j][l]) ensures s[..j][l] == CopyOf(ctx, d) {
      WriterInPart(ctx, parts, d, key, l);
    }
    assert s[..j][i] == CopyOf(ctx, d);
    CopyRuns(engine, After(ctx, parts, engine, 7), s[..j], Table(ctx, d), cs, m);
  }

  lemma DataCreatesNothing(ctx: Deployment, parts: seq<seq<Change>>, j: nat)
    requires Emission(ctx, parts) && |parts| == 20 && j <= |parts[7]|
    ensures forall k :: !Creating(parts[7][..j], k)
  {
    hide Emission;
    PartKind(ctx, parts, 7);
    forall l | 0 <= l < j ensures Creates(parts[7][..j][l]) == {} {
      assert OfKind(DataMigrate, parts[7][l]);
    }
  }

  /** Before its copy it holds nothing yet. */
  lemma KeyBeforeCopy(ctx: Deployment, parts: seq<seq<Change>>, engine: Engine, d: ClassDef, key: PropertyMeta, j: nat)
    requires Runs(ctx, parts, engine) && |parts| == 20 && j <= |parts[7]| && forall l | 0 <= l < j :: parts[7][l] != CopyOf(ctx, d)
    requires Run(engine, ctx.db, Flatten(parts[..7])).Some? && WellFormed(After(ctx, parts, engine, 7))
    requires IsProperty(ctx, d, key) && Migrates(ctx, d, key) && Scalar(key) && KeyProperty(ctx, d) == Some(key)
    requires Amid(ctx, parts, engine, j).Some? && Ref(ctx, d, key) in Amid(ctx, parts, engine, j).value.columns
    ensures AllNull(Amid(ctx, parts, engine, j).value.columns[Ref(ctx, d, key)])
  {
    hide ValidModel, Emission, Run, Flatten, Renamed, SideRenamed, Written, Removing, Writes, Properties, BucketChanges;
    hide SituationOf, Deployed, AllCopies, RenamedTo, KeyProperty, AllNull, Reached, Creating;
    var k, s := Ref(ctx, d, key), parts[7];
    AmidRuns(ctx, parts, engine, j);
    RenamedRef(ctx, d, key);
    OwnNameNotRenamedTo(ctx, d, key, Table(ctx, d));
    forall l | 0 <= l < |s[..j]| ensures k !in Writes(s[..j][l]) {
      if k in Writes(s[l]) {
        WriterInPart(ctx, parts, d, key, l);
      }
    }
    DataCreatesNothing(ctx, parts, j);
    RunKeys(engine, After(ctx, parts, engine, 7), s[..j]);
    FreshIsNull(ctx, parts, engine, k);
    RunKeeps(engine, After(ctx, parts, engine, 7), s[..j], k);
    StaysNull(After(ctx, parts, engine, 7).columns[k], Amid(ctx, parts, engine, j).value.columns[k]);
  }

  // The references.

  lemma {:induction false} NothingAmongNulls(cell: Cell, keys: seq<Cell>, results: seq<Cell>)
    requires forall i | 0 <= i < |results| :: results[i] == Null
    ensures FoundCell(cell, keys, results) == Null
  {
    if keys != [] && results != [] {
      NothingAmongNulls(cell, keys[1..], results[1..]);
    }
  }

  /** What the copy of the referring class finds. */
  lemma ReferenceFound(ctx: Deployment, parts: seq<seq<Change>>, engine: Engine, c: ClassDef, pm: PropertyMeta, d: ClassDef, key: PropertyMeta) returns (j: nat)
    requires Runs(ctx, parts, engine) && Follows(ctx, c, pm, d, key)
    requires |parts| == 20 && Run(engine, ctx.db, Flatten(parts[..7])).Some? && WellFormed(After(ctx, parts, engine, 7))
    requires Run(engine, After(ctx, parts, engine, 7), parts[7]).Some?
    ensures OnceAt(BucketChanges(ctx, ctx.order, DataMigrate), CopyOf(ctx, c), j) && j <= |parts[7]|
    ensures var k, t, r := Ref(ctx, c, pm), Ref(ctx, d, key), Run(engine, After(ctx, parts, engine, 7), parts[7]).value;
            && k in ctx.db.columns && t in ctx.db.columns && k in r.columns
            && Amid(ctx, parts, engine, j).Some? && t in Amid(ctx, parts, engine, j).value.columns
            && r.columns[k].cells == FoundCells(ctx.db.columns[k].cells, ctx.db.columns[t].cells, Amid(ctx, parts, engine, j).value.columns[t].cells)
  {
    hide ValidModel, Emission, Run, Flatten, Renamed, SideRenamed, Written, Removing, Writes, Properties, BucketChanges;
    hide SituationOf, Deployed, AllCopies, KeyProperty, Followed, DistinctTargets, CopyOf, Copies;
    FollowedKeyMigrates(ctx, parts, engine, c, pm, d, key);
    DataPart(ctx, parts, engine);
    var m := ReferenceCopied(ctx, c, pm, d, key);
    var k, t, cs, s := Ref(ctx, c, pm), Ref(ctx, d, key), AllCopies(ctx, c, Properties(ctx, c)), parts[7];
    j := CopyPlace(ctx, ctx.order, c);
    CopyIs(ctx, c);
    assert s[j] == CopyOf(ctx, c) && s[j] in s;
    CopiesDistinct(ctx, c, cs);
    forall i | 0 <= i < |s| && k in Writes(s[i]) ensures s[i] == CopyOf(ctx, c) {
      WriterInPart(ctx, parts, c, pm, i);
      CopyIs(ctx, c);
    }
    var i := CopyAt(engine, After(ctx, parts, engine, 7), s, Table(ctx, c), cs, m);
    assert i == j;
    RenamedRef(ctx, c, pm);
    RenamedRef(ctx, d, key);
    PresentFacts(ctx, c, pm);
    PresentFacts(ctx, d, key);
    SavedAmid(ctx, parts, engine, k, j);
    SavedAmid(ctx, parts, engine, t, j);
    var mid := Amid(ctx, parts, engine, j).value;
    FoundIs(ctx, mid, c, pm, d, key, engine);
  }

  lemma CopyIs(ctx: Deployment, c: ClassDef)
    ensures CopyOf(ctx, c) == CopyData(Table(ctx, c), AllCopies(ctx, c, Properties(ctx, c)))
  {
    hide AllCopies, Properties;
  }

  lemma FoundIs(ctx: Deployment, mid: Schema, c: ClassDef, pm: PropertyMeta, d: ClassDef, key: PropertyMeta, engine: Engine)
    requires CopyReady(mid.columns.Keys, Table(ctx, c), ReferenceCopy(ctx, pm, d, key))
    requires Ref(ctx, c, pm) == ColRef(Table(ctx, c), ctx.settings.naming.column(pm.name))
    requires Ref(ctx, d, key) == ColRef(Table(ctx, d), ctx.settings.naming.column(key.name))
    ensures var k, t := Ref(ctx, c, pm), Ref(ctx, d, key);
            && SavedRef(ctx, k) in mid.columns && SavedRef(ctx, t) in mid.columns && t in mid.columns
            && CopiedCells(mid.columns, Table(ctx, c), ReferenceCopy(ctx, pm, d, key), engine) ==
                 FoundCells(mid.columns[SavedRef(ctx, k)].cells, mid.columns[SavedRef(ctx, t)].cells, mid.columns[t].cells)
  {
    var cp := ReferenceCopy(ctx, pm, d, key);
    assert SavedRef(ctx, Ref(ctx, d, key)) in Searched(cp) && Ref(ctx, d, key) in Searched(cp);
  }

  /** What the data part leaves in a migrated column stays there. */
  lemma StaysToTheEnd(ctx: Deployment, parts: seq<seq<Change>>, engine: Engine, c: ClassDef, pm: PropertyMeta)
    requires Runs(ctx, parts, engine) && IsProperty(ctx, c, pm) && Migrates(ctx, c, pm)
    requires |parts| == 20 && Run(engine, ctx.db, Flatten(parts[..8])).Some? && Ref(ctx, c, pm) in After(ctx, parts, engine, 8).columns
    ensures var k, r := Ref(ctx, c, pm), Run(engine, ctx.db, Flatten(parts)).value;
            k in r.columns && r.columns[k].cells == After(ctx, parts, engine, 8).columns[k].cells
  {
    hide ValidModel, Emission, Run, Flatten, Renamed, SideRenamed, Written, Removing, Writing, Properties;
    var k := Ref(ctx, c, pm);
    assert parts[..20] == parts;
    RenamedRef(ctx, c, pm);
    NotBothRenamed(ctx, k);
    forall l | 8 <= l < 20 ensures !Removing(parts[l], k) && !Writing(parts[l], k) {
      if Writing(parts[l], k) {
        PartWrites(ctx, parts, l, k);
      }
      if Removing(parts[l], k) {
        PartRemoves(ctx, parts, l, k);
      }
    }
    KeptFrom(ctx, parts, engine, 8, 20, k);
  }

  lemma OneFirst(names: seq<string>, a: string, b: string)
    requires a in names && b in names && a != b
    ensures Precedes(names, a, b) || Precedes(names, b, a)
  {
    var i :| 0 <= i < |names| && names[i] == a;
    var j :| 0 <= j < |names| && names[j] == b;
  }

  lemma OnceUnique(s: seq<Change>, b: Change, i: nat, j: nat)
    requires OnceAt(s, b, i) && OnceAt(s, b, j)
    ensures i == j
  {
    assert s[i] == b;
  }

  lemma OnceNotBefore(s: seq<Change>, b: Change, j: nat, l: nat)
    requires OnceAt(s, b, j) && l < j
    ensures s[l] != b
  {
  }

  /** Whether the key column is filled when the references are looked up. */
  lemma KeyAmid(ctx: Deployment, parts: seq<seq<Change>>, engine: Engine, c: ClassDef, d: ClassDef, key: PropertyMeta, j: nat)
    requires Runs(ctx, parts, engine) && IsClass(ctx, c) && Copies(ctx, c) && |parts| == 20 && j <= |parts[7]|
    requires IsProperty(ctx, d, key) && Migrates(ctx, d, key) && Scalar(key) && KeyProperty(ctx, d) == Some(key)
    requires OnceAt(BucketChanges(ctx, ctx.order, DataMigrate), CopyOf(ctx, c), j)
    requires Run(engine, ctx.db, Flatten(parts[..7])).Some? && WellFormed(After(ctx, parts, engine, 7))
    requires Amid(ctx, parts, engine, j).Some? && Ref(ctx, d, key) in Amid(ctx, parts, engine, j).value.columns
    ensures var k, mid := Ref(ctx, d, key), Amid(ctx, parts, engine, j).value;
            if Precedes(ctx.order, d.name, c.name) then
              k in ctx.db.columns &&
              mid.columns[k].cells == CopyCells(ctx.db.columns[k].cells, ctx.settings.rules.cast(key, Deployed(ctx, key), ctx.db.columns[k].info.dataType), engine)
            else AllNull(mid.columns[k])
  {
    hide ValidModel, Emission, Run, Flatten, Properties, BucketChanges, CopyOf, Copies, Migrates, Deployed, KeyProperty, AllNull, Amid, Precedes, OnceAt;
    DataPart(ctx, parts, engine);
    var m := KeyCopied(ctx, d, key);
    if Precedes(ctx.order, d.name, c.name) {
      var i, l := CopyOrder(ctx, ctx.order, d, c);
      OnceUnique(parts[7], CopyOf(ctx, c), l, j);
      OnceThere(parts[7], CopyOf(ctx, d), i);
      KeyAfterCopy(ctx, parts, engine, d, key, i, j);
    } else {
      forall l | 0 <= l < j ensures parts[7][l] != CopyOf(ctx, d) {
        if c.name == d.name {
          OnceNotBefore(parts[7], CopyOf(ctx, c), j, l);
        } else {
          OneFirst(ctx.order, c.name, d.name);
          var a, b := CopyOrder(ctx, ctx.order, c, d);
          OnceUnique(parts[7], CopyOf(ctx, c), a, j);
          OnceNotBefore(parts[7], CopyOf(ctx, d), b, l);
        }
      }
      KeyBeforeCopy(ctx, parts, engine, d, key, j);
    }
  }

  /** After every plan that runs through: where the class referred to is planned before the referring
      class, each migrated reference holds the new key of the row it referred to; where it is not,
      or is the same class, every reference is null. */
  lemma ReferencesFollow(ctx: Deployment, parts: seq<seq<Change>>, engine: Engine, c: ClassDef, pm: PropertyMeta, d: ClassDef, key: PropertyMeta)
    requires Runs(ctx, parts, engine) && Follows(ctx, c, pm, d, key)
    ensures var k, t, r := Ref(ctx, c, pm), Ref(ctx, d, key), Run(engine, ctx.db, Flatten(parts)).value;
            && k in ctx.db.columns && t in ctx.db.columns && k in r.columns && t in r.columns
            && r.columns[k].cells ==
                 if Precedes(ctx.order, d.name, c.name) then FoundCells(ctx.db.columns[k].cells, ctx.db.columns[t].cells, r.columns[t].cells)
                 else Nulls(|ctx.db.columns[k].cells|)
  {
    hide ValidModel, Emission, Run, Flatten, Properties, BucketChanges, CopyOf, Copies, Migrates, Deployed, KeyProperty, Amid, Precedes;
    hide Followed, Reached, OnceAt;
    FollowedKeyMigrates(ctx, parts, engine, c, pm, d, key);
    DataPart(ctx, parts, engine);
    StageOf(ctx, parts, engine, 7);
    var m := ReferenceCopied(ctx, c, pm, d, key);
    var j := ReferenceFound(ctx, parts, engine, c, pm, d, key);
    StaysToTheEnd(ctx, parts, engine, c, pm);
    ScalarsCopied(ctx, parts, engine, d, key);
    KeyAmid(ctx, parts, engine, c, d, key, j);
    var k, t := Ref(ctx, c, pm), Ref(ctx, d, key);
    var old', now := ctx.db.columns[k].cells, Amid(ctx, parts, engine, j).value.columns[t].cells;
    if !Precedes(ctx.order, d.name, c.name) {
      forall i | 0 <= i < |old'| ensures FoundCell(old'[i], ctx.db.columns[t].cells, now) == Null {
        NothingAmongNulls(old'[i], ctx.db.columns[t].cells, now);
      }
      assert FoundCells(old', ctx.db.columns[t].cells, now) == Nulls(|old'|);
    }
  }

  /** Row by row: a reference to a row that has a key afterwards still refers to that row if and only
      if the class referred to is planned before the referring one. */
  lemma ReferencesFollowExactly(ctx: Deployment, parts: seq<seq<Change>>, engine: Engine, c: ClassDef, pm: PropertyMeta, d: ClassDef, key: PropertyMeta, i: nat)
    requires Runs(ctx, parts, engine) && Follows(ctx, c, pm, d, key)
    requires Ref(ctx, c, pm) in ctx.db.columns && i < |ctx.db.columns[Ref(ctx, c, pm)].cells|
    ensures var k, t, r := Ref(ctx, c, pm), Ref(ctx, d, key), Run(engine, ctx.db, Flatten(parts)).value;
            && t in ctx.db.columns && k in r.columns && t in r.columns && i < |r.columns[k].cells|
            && var kept := FoundCell(ctx.db.columns[k].cells[i], ctx.db.columns[t].cells, r.columns[t].cells);
               kept != Null ==> (r.columns[k].cells[i] == kept <==> Precedes(ctx.order, d.name, c.name))
  {
    hide Runs, Run, Flatten, Follows, Precedes, FoundCell;
    PartCount(ctx, parts, engine);
    ReferencesFollow(ctx, parts, engine, c, pm, d, key);
  }
}
