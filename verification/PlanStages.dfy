/** What kinds of changes a bucket holds, and that the changes which move columns, renames
    and creations, occur in it once. A bucket is filled property by property and class by
    class; two changes of different properties or of different classes differ in the column
    or the table they name, because the names of a valid model do not collide. */
module PlanStages {
  import opened PropertyTypes
  import opened Database
  import opened DeployPlan
  import opened PlanShape
  import opened PlanColumns
  import Listing

  /** The kind of change a bucket holds. */
  predicate OfKind(b: Bucket, ch: Change) {
    match b
    case CleanPK | ModifyTypes | ModifyRelTypes => ch.ModifyDataType?
    case DropPK | DropRelPK => ch.DropPrimaryKey?
    case CreatePK | CreateRelPK => ch.AddPrimaryKey?
    case RenameColumns | RenameRelColumns => ch.RenameColumn?
    case CreateTables | CreateRelTables => ch.CreateTable?
    case AddedColumns | AddRelColumns => ch.AddColumns?
    case DataMigrate => ch.Backfill? || ch.CopyData?
    case AddIndices => ch.CreateIndex?
    case CreateFKs | CreateRelFKs => ch.AddForeignKey?
    case _ => false
  }

  lemma RelationKind(ctx: Deployment, c: ClassDef, other: ClassDef, r: string, b: Bucket, ch: Change)
    requires ch in RelationChanges(ctx, c, other, r, b)
    ensures RelationBucket(b) && OfKind(b, ch) && ch.table == r
  {
    hide SideDecision, KeyProperty, Resets;
  }

  lemma PropertyKind(ctx: Deployment, c: ClassDef, pm: PropertyMeta, b: Bucket, ch: Change)
    requires ch in PropertyChanges(ctx, c, pm, b)
    ensures OfKind(b, ch)
    ensures if RelationBucket(b) then ch.table == Relation(ctx, c, pm) else ch.table == Table(ctx, c)
  {
    hide RelationChanges, SituationOf, KeyProperty, IsKey;
    if RelationBucket(b) {
      RelationKind(ctx, c, Find(ctx, pm.itemsClass).value, Relation(ctx, c, pm), b, ch);
    } else if RelationPart(ctx, c, pm, b) != [] {
      RelationKind(ctx, c, Find(ctx, pm.itemsClass).value, Relation(ctx, c, pm), b, RelationPart(ctx, c, pm, b)[0]);
    }
  }

  /** ch belongs to class c: it is about the class table or a relation table of one of its properties. */
  ghost predicate Owned(ctx: Deployment, c: ClassDef, b: Bucket, ch: Change) {
    if RelationBucket(b) then exists p :: p in PropertyNames(ctx) && ch.table == ctx.settings.naming.relation(c.name, p) else ch.table == Table(ctx, c)
  }

  lemma ClassKind(ctx: Deployment, c: ClassDef, ps: seq<PropertyMeta>, b: Bucket, ch: Change)
    requires ch in ClassChanges(ctx, c, ps, b)
    ensures OfKind(b, ch)
    ensures !RelationBucket(b) ==> ch.table == Table(ctx, c)
    ensures (forall p | p in ps :: p.name in PropertyNames(ctx)) ==> Owned(ctx, c, b, ch)
  {
    hide PropertyChanges, AllColumns, AllCopies, KeyColumns, KeyProperty, GetsKeyColumn;
    if ch in AllPropertyChanges(ctx, c, ps, b) {
      var pm := FromProperty(ctx, c, ps, b, ch);
      PropertyKind(ctx, c, pm, b, ch);
    }
  }

  lemma BucketKind(ctx: Deployment, b: Bucket, ch: Change)
    requires ch in Bucketed(ctx, b)
    ensures OfKind(b, ch)
  {
    hide BucketChanges, ClassChanges, Properties;
    var c := FromClass(ctx, ctx.order, b, ch);
    ClassKind(ctx, c, Properties(ctx, c), b, ch);
  }

  // No change occurs twice in the buckets that move columns.

  predicate Moving(b: Bucket) {
    b in {RenameColumns, CreateTables, AddedColumns, RenameRelColumns, CreateRelTables, AddRelColumns}
  }

  lemma {:induction false} PropertyChangesOnce(ctx: Deployment, c: ClassDef, ps: seq<PropertyMeta>, b: Bucket)
    requires NamesApart(ctx) && DistinctProperties(ps) && forall p | p in ps :: p.name in PropertyNames(ctx)
    requires forall n | n in PropertyNames(ctx) :: ctx.settings.naming.column(n) != ctx.settings.discriminator
    requires SavedApart(ctx) && c.name in ctx.classes
    requires Moving(b) && b !in {CreateTables, AddedColumns}
    ensures Listing.Distinct(AllPropertyChanges(ctx, c, ps, b))
  {
    hide PropertyChanges;
    if ps != [] {
      var front, last := ps[..|ps| - 1], ps[|ps| - 1];
      PropertyChangesOnce(ctx, c, front, b);
      OneProperty(ctx, c, last, b);
      var x, y := AllPropertyChanges(ctx, c, front, b), PropertyChanges(ctx, c, last, b);
      forall i, j | 0 <= i < |x| && 0 <= j < |y| ensures x[i] != y[j] {
        assert x[i] in x && y[j] in y;
        var pm := FromProperty(ctx, c, front, b, x[i]);
        var k :| 0 <= k < |front| && front[k] == pm;
        assert ps[k].name != ps[|ps| - 1].name;
        PropertiesDiffer(ctx, c, pm, last, b, x[i], y[j]);
      }
      Listing.DistinctConcat(x, y);
    }
  }

  predicate SavedApart(ctx: Deployment) {
    Saved(ctx, "master") != Saved(ctx, "detail")
  }

  lemma OneProperty(ctx: Deployment, c: ClassDef, pm: PropertyMeta, b: Bucket)
    requires Moving(b) && b !in {CreateTables, AddedColumns} && SavedApart(ctx)
    ensures Listing.Distinct(PropertyChanges(ctx, c, pm, b))
  {
    hide SituationOf, KeyProperty, SideDecision, SideColumn;
  }

  lemma PropertiesDiffer(ctx: Deployment, c: ClassDef, p: PropertyMeta, q: PropertyMeta, b: Bucket, x: Change, y: Change)
    requires NamesApart(ctx) && p.name != q.name && p.name in PropertyNames(ctx) && q.name in PropertyNames(ctx) && c.name in ctx.classes
    requires forall n | n in PropertyNames(ctx) :: ctx.settings.naming.column(n) != ctx.settings.discriminator
    requires Moving(b) && b !in {CreateTables, AddedColumns}
    requires x in PropertyChanges(ctx, c, p, b) && y in PropertyChanges(ctx, c, q, b)
    ensures x != y
  {
    PropertyKind(ctx, c, p, b, x);
    PropertyKind(ctx, c, q, b, y);
    if b == RenameColumns {
      hide SituationOf;
      assert x.column == ColumnName(ctx, p) && y.column == ColumnName(ctx, q);
    } else {
      hide PropertyChanges;
    }
  }

  lemma ClassChangesOnce(ctx: Deployment, c: ClassDef, b: Bucket)
    requires ValidModel(ctx) && IsClass(ctx, c) && Moving(b)
    ensures Listing.Distinct(ClassChanges(ctx, c, Properties(ctx, c), b))
  {
    hide Properties, AllPropertyChanges, AllColumns, KeyColumns;
    ClassFacts(ctx, c);
    if b !in {CreateTables, AddedColumns} {
      SavedDiffer(ctx);
      PropertyChangesOnce(ctx, c, Properties(ctx, c), b);
    }
  }

  lemma SavedDiffer(ctx: Deployment)
    ensures SavedApart(ctx)
  {
    assert Saved(ctx, "master")[0] == 'm' && Saved(ctx, "detail")[0] == 'd';
  }

  lemma {:induction false} ChangesOnce(ctx: Deployment, names: seq<string>, b: Bucket)
    requires ValidModel(ctx) && Moving(b)
    requires Listing.Distinct(names) && forall n | n in names :: n in ctx.classes
    ensures Listing.Distinct(BucketChanges(ctx, names, b))
  {
    hide ClassChanges, Properties, ValidModel;
    if names != [] {
      var front, n := names[..|names| - 1], names[|names| - 1];
      var c := ctx.classes[n];
      assert Grounded(ctx, n);
      ChangesOnce(ctx, front, b);
      ClassChangesOnce(ctx, c, b);
      var x, y := BucketChanges(ctx, front, b), ClassChanges(ctx, c, Properties(ctx, c), b);
      forall i, j | 0 <= i < |x| && 0 <= j < |y| ensures x[i] != y[j] {
        assert x[i] in x && y[j] in y;
        var d := FromClass(ctx, front, b, x[i]);
        ClassFacts(ctx, c);
        ClassFacts(ctx, d);
        ClassKind(ctx, d, Properties(ctx, d), b, x[i]);
        ClassKind(ctx, c, Properties(ctx, c), b, y[j]);
        assert d.name != c.name;
        OwnersDiffer(ctx, c, d, b, x[i], y[j]);
      }
      Listing.DistinctConcat(x, y);
    }
  }

  lemma OwnersDiffer(ctx: Deployment, c: ClassDef, d: ClassDef, b: Bucket, x: Change, y: Change)
    requires ValidModel(ctx) && IsClass(ctx, c) && IsClass(ctx, d) && c.name != d.name && Owned(ctx, d, b, x) && Owned(ctx, c, b, y)
    ensures x != y
  {
  }
}
