/** The planning loop of ModelDeployer: it walks over classes and properties, fills the
    buckets and numbers every change set it creates. The methods keep ghost records of what
    went into the buckets, which foreign keys are dropped and which relation tables were
    met; in the end each bucket holds what DeployPlan says, and all numbers differ. */
module ModelDeploying {
  import opened Wrappers
  import opened PropertyTypes
  import opened Database
  import opened DeployPlan
  import opened DeployLog
  import InheritanceLevels
  import Listing
  import Text

  datatype ChangeSet = ChangeSet(index: nat, change: Change)

  type Buckets = map<Bucket, seq<ChangeSet>>

  function Bucketful(bs: Buckets, b: Bucket): seq<ChangeSet> {
    if b in bs then bs[b] else []
  }

  function Added(bs: Buckets, b: Bucket, cs: ChangeSet): Buckets {
    bs[b := Bucketful(bs, b) + [cs]]
  }

  function ChangesOf(s: seq<ChangeSet>): (r: seq<Change>)
    ensures |r| == |s| && forall i | 0 <= i < |s| :: r[i] == s[i].change
  {
    seq(|s|, i requires 0 <= i < |s| => s[i].change)
  }

  ghost function Contents(bs: Buckets, b: Bucket): seq<Change> {
    ChangesOf(Bucketful(bs, b))
  }

  predicate IsDropBucket(b: Bucket) {
    b == DropFKs || b == DropIndices
  }

  /** Every change set has a number of its own below the counter. */
  ghost predicate Numbered(bs: Buckets, counter: nat, owner: map<nat, (Bucket, nat)>) {
    forall b: Bucket, i {:trigger Bucketful(bs, b)[i]} | 0 <= i < |Bucketful(bs, b)| ::
      var n := Bucketful(bs, b)[i].index;
      n < counter && n in owner && owner[n] == (b, i)
  }

  /** The buckets other than those for dropped keys and indices hold what the log says. */
  ghost predicate Logged(bs: Buckets, log: Log) {
    forall b: Bucket {:trigger Contents(bs, b)} | !IsDropBucket(b) :: Contents(bs, b) == Select(log, b)
  }

  /** Every dropped key exists and is dropped once. */
  ghost predicate SoundDrops(ctx: Deployment, bs: Buckets, dropped: set<string>) {
    && (forall i {:trigger Bucketful(bs, DropFKs)[i]} | 0 <= i < |Bucketful(bs, DropFKs)| ::
          DropsExisting(ctx, Bucketful(bs, DropFKs)[i].change) && Bucketful(bs, DropFKs)[i].change.name in dropped)
    && (forall i, j {:trigger Bucketful(bs, DropFKs)[i], Bucketful(bs, DropFKs)[j]} | 0 <= i < j < |Bucketful(bs, DropFKs)| ::
          Bucketful(bs, DropFKs)[i].change.name != Bucketful(bs, DropFKs)[j].change.name)
    && (forall n | n in dropped :: HoldsDrop(Bucketful(bs, DropFKs), n))
  }

  /** The relation tables met so far include those of the keyed buckets. */
  ghost predicate Keyed(bs: Buckets, relations: set<string>) {
    forall b: Bucket, i {:trigger Bucketful(bs, b)[i]} | b in {DropRelPK, CreateRelTables, CreateRelPK} && 0 <= i < |Bucketful(bs, b)| ::
      Bucketful(bs, b)[i].change.table in relations
  }

  /** containsKey on the map of keys to drop. */
  predicate HoldsDrop(s: seq<ChangeSet>, name: string) {
    exists i :: 0 <= i < |s| && s[i].change.DropForeignKey? && s[i].change.name == name
  }

  /** containsKey on the maps keyed by relation table. */
  predicate HoldsTable(s: seq<ChangeSet>, table: string) {
    exists i :: 0 <= i < |s| && s[i].change.table == table
  }

  lemma KnownDrops(ctx: Deployment, bs: Buckets, dropped: set<string>, name: string)
    requires SoundDrops(ctx, bs, dropped)
    ensures HoldsDrop(Bucketful(bs, DropFKs), name) <==> name in dropped
  {
  }

  lemma ItExists(ctx: Deployment, fk: ForeignKey)
    requires fk in ctx.db.keys
    ensures DropsExisting(ctx, DropForeignKey(fk.table, fk.name))
  {
  }

  lemma NumberedAfter(bs: Buckets, counter: nat, owner: map<nat, (Bucket, nat)>, b: Bucket, ch: Change)
    requires Numbered(bs, counter, owner)
    ensures Numbered(Added(bs, b, ChangeSet(counter, ch)), counter + 1, owner[counter := (b, |Bucketful(bs, b)|)])
  {
    var s := Bucketful(bs, b);
    var next := Added(bs, b, ChangeSet(counter, ch));
    forall x: Bucket, i | 0 <= i < |Bucketful(next, x)|
      ensures var n := Bucketful(next, x)[i].index;
              n < counter + 1 && n in owner[counter := (b, |s|)] && owner[counter := (b, |s|)][n] == (x, i)
    {
      assert x != b ==> Bucketful(next, x) == Bucketful(bs, x);
      assert i < |Bucketful(bs, x)| ==> Bucketful(next, x)[i] == Bucketful(bs, x)[i];
    }
  }

  lemma ContentsAfter(bs: Buckets, b: Bucket, cs: ChangeSet, x: Bucket)
    ensures Contents(Added(bs, b, cs), x) == if x == b then Contents(bs, b) + [cs.change] else Contents(bs, x)
  {
    if x != b {
      assert Bucketful(Added(bs, b, cs), x) == Bucketful(bs, x);
    }
  }

  lemma LoggedAfter(bs: Buckets, log: Log, b: Bucket, cs: ChangeSet)
    requires Logged(bs, log)
    ensures Logged(Added(bs, b, cs), if IsDropBucket(b) then log else Put(log, b, cs.change))
  {
    forall x: Bucket | !IsDropBucket(x)
      ensures Contents(Added(bs, b, cs), x) == Select(if IsDropBucket(b) then log else Put(log, b, cs.change), x)
    {
      ContentsAfter(bs, b, cs, x);
    }
  }

  lemma DropsAfter(ctx: Deployment, bs: Buckets, dropped: set<string>, cs: ChangeSet)
    requires SoundDrops(ctx, bs, dropped) && DropsExisting(ctx, cs.change) && cs.change.name !in dropped
    ensures SoundDrops(ctx, Added(bs, DropFKs, cs), dropped + {cs.change.name})
  {
    var s := Bucketful(bs, DropFKs);
    var next := Added(bs, DropFKs, cs);
    assert Bucketful(next, DropFKs) == s + [cs];
    forall n | n in dropped + {cs.change.name} ensures HoldsDrop(s + [cs], n) {
      if n in dropped {
        var i :| 0 <= i < |s| && s[i].change.DropForeignKey? && s[i].change.name == n;
        assert (s + [cs])[i] == s[i];
      } else {
        assert (s + [cs])[|s|] == cs;
      }
    }
  }

  lemma KeyedAfter(bs: Buckets, relations: set<string>, b: Bucket, cs: ChangeSet)
    requires Keyed(bs, relations) && (b in {DropRelPK, CreateRelTables, CreateRelPK} ==> cs.change.table in relations)
    ensures Keyed(Added(bs, b, cs), relations)
  {
    var next := Added(bs, b, cs);
    forall x: Bucket, i | x in {DropRelPK, CreateRelTables, CreateRelPK} && 0 <= i < |Bucketful(next, x)|
      ensures Bucketful(next, x)[i].change.table in relations
    {
      assert x != b ==> Bucketful(next, x) == Bucketful(bs, x);
      assert i < |Bucketful(bs, x)| ==> Bucketful(next, x)[i] == Bucketful(bs, x)[i];
    }
  }

  /** The lists that are collected over the properties of one class. */
  datatype Pending = Pending(columns: seq<NewColumn>, copies: seq<Copy>, keys: seq<Change>, renames: seq<Change>, drops: seq<ForeignKey>)

  function NamesOf(fks: seq<ForeignKey>): set<string> {
    set i | 0 <= i < |fks| :: fks[i].name
  }

  /** What one property adds to the lists of its class. */
  ghost predicate Collects(ctx: Deployment, c: ClassDef, pm: PropertyMeta, p: Pending, q: Pending) {
    && q.columns == p.columns + PropertyColumns(ctx, c, pm)
    && q.copies == p.copies + PropertyCopies(ctx, c, pm)
    && q.keys == p.keys + PropertyChanges(ctx, c, pm, CreateFKs)
    && q.renames == p.renames + PropertyChanges(ctx, c, pm, RenameColumns)
    && (forall i | 0 <= i < |q.drops| :: q.drops[i] in ctx.db.keys)
  }

  class ModelDeployer {
    const ctx: Deployment
    var counter: nat
    var buckets: Buckets
    ghost var owner: map<nat, (Bucket, nat)>
    ghost var plan: Log
    ghost var dropped: set<string>
    ghost var relations: set<string>

    /** plan is the log of what was put into the buckets, dropped keys and indices aside. */
    ghost predicate Valid()
      reads this
    {
      && Numbered(buckets, counter, owner)
      && Logged(buckets, plan)
      && SoundDrops(ctx, buckets, dropped)
      && Keyed(buckets, relations)
    }

    constructor (ctx: Deployment)
      ensures Valid() && this.ctx == ctx && counter == 1 && plan == Start && dropped == {} && relations == {}
    {
      this.ctx := ctx;
      counter := 1;
      buckets := map[];
      owner := map[];
      plan := Start;
      dropped := {};
      relations := {};
    }

    /** createChangeSet, addChange and the step of the counter. */
    method Emit(b: Bucket, ch: Change)
      requires Valid() && b != DropFKs
      requires b in {DropRelPK, CreateRelTables, CreateRelPK} ==> ch.table in relations
      modifies `counter, `buckets, `owner, `plan
      ensures Valid()
      ensures buckets == Added(old(buckets), b, ChangeSet(old(counter), ch))
      ensures plan == if b == DropIndices then old(plan) else Put(old(plan), b, ch)
    {
      var cs := ChangeSet(counter, ch);
      NumberedAfter(buckets, counter, owner, b, ch);
      LoggedAfter(buckets, plan, b, cs);
      KeyedAfter(buckets, relations, b, cs);
      assert Bucketful(Added(buckets, b, cs), DropFKs) == Bucketful(buckets, DropFKs);
      if b != DropIndices {
        plan := Put(plan, b, ch);
      }
      owner := owner[counter := (b, |Bucketful(buckets, b)|)];
      buckets := Added(buckets, b, cs);
      counter := counter + 1;
    }

    /** The same for a foreign key to be dropped, kept under its constraint name. */
    method EmitDrop(ch: Change)
      requires Valid() && DropsExisting(ctx, ch) && ch.name !in dropped
      modifies `counter, `buckets, `owner, `dropped
      ensures Valid() && dropped == old(dropped) + {ch.name}
      ensures buckets == Added(old(buckets), DropFKs, ChangeSet(old(counter), ch))
    {
      var cs := ChangeSet(counter, ch);
      NumberedAfter(buckets, counter, owner, DropFKs, ch);
      LoggedAfter(buckets, plan, DropFKs, cs);
      KeyedAfter(buckets, relations, DropFKs, cs);
      DropsAfter(ctx, buckets, dropped, cs);
      dropped := dropped + {ch.name};
      owner := owner[counter := (DropFKs, |Bucketful(buckets, DropFKs)|)];
      buckets := Added(buckets, DropFKs, cs);
      counter := counter + 1;
    }

    /** Drops a foreign key unless one of that name is already dropped, with the indices named like it. */
    method DropKey(fk: ForeignKey)
      requires Valid() && fk in ctx.db.keys
      modifies `counter, `buckets, `owner, `plan, `dropped
      ensures Valid() && plan == old(plan) && dropped == old(dropped) + {fk.name}
      ensures Bucketful(buckets, CreateRelPK) == old(Bucketful(buckets, CreateRelPK))
    {
      KnownDrops(ctx, buckets, dropped, fk.name);
      hide Numbered, Logged, SoundDrops, Keyed, HoldsDrop;
      if !HoldsDrop(Bucketful(buckets, DropFKs), fk.name) {
        assert DropsExisting(ctx, DropForeignKey(fk.table, fk.name)) by { ItExists(ctx, fk); }
        EmitDrop(DropForeignKey(fk.table, fk.name));
        for i := 0 to |ctx.indices|
          invariant Valid() && plan == old(plan) && dropped == old(dropped) + {fk.name}
          invariant Bucketful(buckets, CreateRelPK) == old(Bucketful(buckets, CreateRelPK))
        {
          if ctx.indices[i] == (fk.table, fk.name) {
            Emit(DropIndices, DropIndex(fk.table, fk.name));
          }
        }
      }
    }

    /** Drops the foreign keys of a relation table. */
    method DropImported(r: string)
      requires Valid()
      modifies `counter, `buckets, `owner, `plan, `dropped
      ensures Valid() && plan == old(plan) && dropped == old(dropped) + ImportedKeys(ctx, r)
      ensures Bucketful(buckets, CreateRelPK) == old(Bucketful(buckets, CreateRelPK))
    {
      ghost var done := {};
      for i := 0 to |ctx.db.keys|
        invariant Valid() && plan == old(plan)
        invariant done == set j | 0 <= j < i && ctx.db.keys[j].table == r :: ctx.db.keys[j].name
        invariant dropped == old(dropped) + done
        invariant Bucketful(buckets, CreateRelPK) == old(Bucketful(buckets, CreateRelPK))
      {
        if ctx.db.keys[i].table == r {
          DropKey(ctx.db.keys[i]);
          done := done + {ctx.db.keys[i].name};
        }
      }
    }

    /** One column of an existing relation table. */
    method PlanSide(relation: string, side: string, c: ClassDef, columns: seq<NewColumn>, reset: bool)
      returns (columns': seq<NewColumn>, reset': bool)
      requires Valid() && KeyProperty(ctx, c).Some?
      modifies `counter, `buckets, `owner, `plan, `dropped
      ensures Valid() && plan == LogSide(ctx, relation, side, c, old(plan)) && dropped == old(dropped)
      ensures Bucketful(buckets, DropRelPK) == old(Bucketful(buckets, DropRelPK))
      ensures Bucketful(buckets, CreateRelPK) == old(Bucketful(buckets, CreateRelPK))
      ensures columns' == columns + SideAdds(ctx, relation, side, c)
      ensures reset' == (reset || SideDecision(ctx, relation, side, c) == Some(Migrate))
    {
      columns', reset' := columns, reset;
      var pm := KeyProperty(ctx, c).value;
      var k := ColRef(relation, side);
      if k in ctx.db.columns {
        var decision := ctx.settings.rules.decideRelation(pm, ctx.db.columns[k].info);
        var ty := ctx.settings.rules.deployedType(pm);
        if decision == Migrate {
          Emit(RenameRelColumns, RenameColumn(relation, side, Saved(ctx, side)));
          reset' := true;
          columns' := columns + [NewColumn(side, ty)];
        } else if decision == Widen {
          Emit(ModifyRelTypes, ModifyDataType(relation, side, ty));
        }
      }
    }

    /** The foreign keys of the two columns of a relation table. */
    method EmitSideKeys(r: string, c: ClassDef, other: ClassDef, masterKey: string, detailKey: string)
      requires Valid() && KeyProperty(ctx, c).Some? && KeyProperty(ctx, other).Some?
      modifies `counter, `buckets, `owner, `plan
      ensures Valid()
      ensures plan == LogSideKey(ctx, r, detailKey, "detail", other, LogSideKey(ctx, r, masterKey, "master", c, old(plan)))
    {
      var n := ctx.settings.naming;
      var pm, pd := KeyProperty(ctx, c).value, KeyProperty(ctx, other).value;
      Emit(CreateRelFKs, AddForeignKey(masterKey, r, "master", Table(ctx, c), n.column(pm.name)));
      Emit(CreateRelFKs, AddForeignKey(detailKey, r, "detail", Table(ctx, other), n.column(pd.name)));
    }

    method CreateRelation(c: ClassDef, other: ClassDef, r: string)
      requires Valid() && r in relations && KeyProperty(ctx, c).Some? && KeyProperty(ctx, other).Some?
      modifies `counter, `buckets, `owner, `plan, `dropped
      ensures Valid() && plan == LogNewRelation(ctx, c, other, r, old(plan)) && dropped == old(dropped)
    {
      if ctx.settings.referentialIntegrity {
        EmitSideKeys(r, c, other, ctx.settings.naming.foreignKey(r, "master"), ctx.settings.naming.foreignKey(r, "detail"));
      }
      Emit(CreateRelTables, CreateTable(r, SideColumn(ctx, "master", c) + SideColumn(ctx, "detail", other)));
      Emit(CreateRelPK, AddPrimaryKey(r, ["master", "detail"]));
    }

    method ResetRelation(c: ClassDef, other: ClassDef, r: string)
      requires Valid() && r in relations
      requires !HoldsTable(Bucketful(buckets, DropRelPK), r) && !HoldsTable(Bucketful(buckets, CreateRelPK), r)
      requires KeyProperty(ctx, c).Some? && KeyProperty(ctx, other).Some?
      modifies `counter, `buckets, `owner, `plan, `dropped
      ensures Valid() && plan == LogReset(ctx, c, other, r, old(plan)) && dropped == old(dropped) + ImportedKeys(ctx, r)
    {
      if !HoldsTable(Bucketful(buckets, DropRelPK), r) {
        DropImported(r);
        Emit(DropRelPK, DropPrimaryKey(r));
      }
      if !HoldsTable(Bucketful(buckets, CreateRelPK), r) {
        EmitSideKeys(r, c, other, "fk_" + r + "_0", "fk_" + r + "_1");
      }
      Emit(CreateRelPK, AddPrimaryKey(r, ["master", "detail"]));
    }

    method ExtendRelation(c: ClassDef, other: ClassDef, r: string)
      requires Valid() && r in relations && r in ctx.db.tables
      requires !HoldsTable(Bucketful(buckets, DropRelPK), r) && !HoldsTable(Bucketful(buckets, CreateRelPK), r)
      requires KeyProperty(ctx, c).Some? && KeyProperty(ctx, other).Some?
      modifies `counter, `buckets, `owner, `plan, `dropped
      ensures Valid() && plan == LogExistingRelation(ctx, c, other, r, old(plan))
      ensures dropped == old(dropped) + RelationDrops(ctx, c, other, r)
    {
      var columns, reset := PlanSide(r, "master", c, [], false);
      assert columns == SideAdds(ctx, r, "master", c);
      columns, reset := PlanSide(r, "detail", other, columns, reset);
      if |columns| > 0 {
        Emit(AddRelColumns, AddColumns(r, columns));
      }
      if reset {
        ResetRelation(c, other, r);
      }
    }

    /** The relation table of a collection; nothing happens when the items' class is unknown. */
    method EstablishRelationship(c: ClassDef, other: Option<ClassDef>, r: string)
      requires Valid() && r !in relations
      requires KeyProperty(ctx, c).Some? && (other.Some? ==> KeyProperty(ctx, other.value).Some?)
      modifies this
      ensures Valid() && old(relations) <= relations <= old(relations) + {r}
      ensures plan == if other.None? then old(plan) else LogRelation(ctx, c, other.value, r, old(plan))
      ensures dropped == old(dropped) + if other.None? then {} else RelationDrops(ctx, c, other.value, r)
    {
      if other.None? {
        return;
      }
      assert !HoldsTable(Bucketful(buckets, DropRelPK), r) && !HoldsTable(Bucketful(buckets, CreateRelPK), r);
      assert !HoldsTable(Bucketful(buckets, CreateRelTables), r);
      relations := relations + {r};
      if r in ctx.db.tables {
        ExtendRelation(c, other.value, r);
      } else if !HoldsTable(Bucketful(buckets, CreateRelTables), r) {
        CreateRelation(c, other.value, r);
      }
    }

    /** columnSetup: the column of a property and the foreign key that goes with it. */
    method ColumnSetup(c: ClassDef, pm: PropertyMeta, deployed: PropertyMeta, keys: seq<Change>) returns (column: NewColumn, keys': seq<Change>)
      requires Resolvable(ctx) && (pm.kind == REFERENCE && ctx.settings.referentialIntegrity ==> pm.refClass in ctx.classes)
      ensures column == NewColumn(ctx.settings.naming.column(pm.name), ctx.settings.rules.deployedType(deployed))
      ensures keys' == keys + ForeignKeys(ctx, c, pm)
    {
      var n := ctx.settings.naming;
      column := NewColumn(n.column(pm.name), ctx.settings.rules.deployedType(deployed));
      keys' := keys;
      if pm.kind == REFERENCE {
        if ctx.settings.referentialIntegrity {
          var rc := ctx.classes[pm.refClass];
          assert ResolvableClass(ctx, rc);
          keys' := keys + [AddForeignKey(n.foreignKey(c.name, pm.name), Table(ctx, c), n.column(pm.name),
                                         Table(ctx, rc), n.column(KeyProperty(ctx, rc).value.name))];
        }
      } else if IsKey(ctx, c, pm.name) && !HasProperty(c.properties, pm.name) {
        if c.ancestor in ctx.classes {
          var a := ctx.classes[c.ancestor];
          assert ResolvableClass(ctx, a);
          keys' := keys + [AddForeignKey(n.foreignKey(c.name, pm.name), Table(ctx, c), n.column(pm.name),
                                         Table(ctx, a), n.column(KeyProperty(ctx, a).value.name))];
        }
      }
    }

    /** The foreign keys that refer to a table. */
    method Exported(t: string) returns (r: seq<ForeignKey>)
      ensures NamesOf(r) == ExportedKeys(ctx, t) && forall i | 0 <= i < |r| :: r[i] in ctx.db.keys
    {
      r := [];
      for i := 0 to |ctx.db.keys|
        invariant forall k | 0 <= k < |r| :: r[k] in ctx.db.keys
        invariant NamesOf(r) == set j | 0 <= j < i && ctx.db.keys[j].refTable == t :: ctx.db.keys[j].name
      {
        if ctx.db.keys[i].refTable == t {
          NamesSnoc(r, ctx.db.keys[i]);
          r := r + [ctx.db.keys[i]];
        }
      }
    }

    /** processIndexed. */
    method ProcessIndexed(c: ClassDef, pm: PropertyMeta)
      requires Valid()
      modifies `counter, `buckets, `owner, `plan
      ensures Valid()
      ensures plan == PutIf(pm.indexed && !pm.unique, old(plan), AddIndices,
                            CreateIndex(Table(ctx, c), ctx.settings.naming.index(c.name, pm.name), ctx.settings.naming.column(pm.name)))
    {
      if pm.indexed && !pm.unique {
        Emit(AddIndices, CreateIndex(Table(ctx, c), ctx.settings.naming.index(c.name, pm.name), ctx.settings.naming.column(pm.name)));
      }
    }

    /** The three change sets around the primary key, when a key column is migrated. */
    method ReplaceKey(c: ClassDef, pm: PropertyMeta, info: ColumnInfo)
      requires Valid() && SituationOf(ctx, c, pm) == Present(info, Migrate)
      modifies `counter, `buckets, `owner, `plan
      ensures Valid() && plan == LogKey(ctx, c, pm, old(plan))
    {
      hide Numbered, Logged, SoundDrops, Keyed, ColumnName, IsKey;
      if IsKey(ctx, c, pm.name) {
        Emit(DropPK, DropPrimaryKey(Table(ctx, c)));
        Emit(CreatePK, AddPrimaryKey(Table(ctx, c), [ctx.settings.naming.column(pm.name)]));
        Emit(CleanPK, ModifyDataType(Table(ctx, c), ColumnName(ctx, pm), ctx.settings.rules.currentType(info)));
      }
    }

    /** A collection without back reference and back collection has a relation table. */
    method PlanCollection(c: ClassDef, pm: PropertyMeta)
      requires Valid() && Resolvable(ctx) && KeyProperty(ctx, c).Some? && Relation(ctx, c, pm) !in relations
      requires pm.kind == COLLECTION
      modifies this
      ensures Valid() && old(relations) <= relations <= old(relations) + {Relation(ctx, c, pm)}
      ensures var links := IsBlank(pm.backRef) && IsBlank(pm.backColl) && pm.itemsClass in ctx.classes;
              && plan == (if links then LogRelation(ctx, c, ctx.classes[pm.itemsClass], Relation(ctx, c, pm), old(plan)) else old(plan))
              && dropped == old(dropped) + (if links then RelationDrops(ctx, c, ctx.classes[pm.itemsClass], Relation(ctx, c, pm)) else {})
    {
      if IsBlank(pm.backRef) && IsBlank(pm.backColl) {
        if pm.itemsClass in ctx.classes {
          assert ResolvableClass(ctx, ctx.classes[pm.itemsClass]);
        }
        EstablishRelationship(c, Find(ctx, pm.itemsClass), Relation(ctx, c, pm));
      }
    }

    /** The loop over the foreign keys of a table: the first over the column decides. */
    method FollowKey(t: string, column: string, refTable: string) returns (pk: Option<string>)
      ensures pk == FollowedKey(ctx.db.keys, t, column, refTable)
    {
      var keys := ctx.db.keys;
      for i := 0 to |keys|
        invariant FollowedKey(keys, t, column, refTable) == FollowedKey(keys[i..], t, column, refTable)
      {
        if keys[i].table == t && keys[i].column == column {
          return if keys[i].refTable == refTable then Some(keys[i].refColumn) else None;
        }
        assert keys[i..][1..] == keys[i + 1..];
      }
      pk := None;
    }

    /** The new column of a property whose old column has been renamed. */
    method PlanMigratedColumn(c: ClassDef, pm: PropertyMeta, info: ColumnInfo, p: Pending) returns (q: Pending)
      requires Valid() && Resolvable(ctx)
      requires pm.kind == REFERENCE && ctx.settings.referentialIntegrity ==> pm.refClass in ctx.classes
      requires forall i | 0 <= i < |p.drops| :: p.drops[i] in ctx.db.keys
      modifies `counter, `buckets, `owner, `plan
      ensures Valid()
      ensures plan == PutIf(pm.indexed && !pm.unique, old(plan), AddIndices,
                            CreateIndex(Table(ctx, c), ctx.settings.naming.index(c.name, pm.name), ctx.settings.naming.column(pm.name)))
      ensures q.columns == p.columns + [NewColumn(ctx.settings.naming.column(pm.name), ctx.settings.rules.deployedType(Deployed(ctx, pm)))]
      ensures q.keys == p.keys + ForeignKeys(ctx, c, pm) && q.renames == p.renames
      ensures q.copies == p.copies + MigratedCopies(ctx, c, pm, info)
      ensures NamesOf(q.drops) == NamesOf(p.drops) + if IsKey(ctx, c, pm.name) then ExportedKeys(ctx, Table(ctx, c)) else {}
      ensures forall i | 0 <= i < |q.drops| :: q.drops[i] in ctx.db.keys
    {
      hide Numbered, Logged, SoundDrops, Keyed, Resolvable, ForeignKeys, KeyProperty, FollowedKey;
      var column, keys := ColumnSetup(c, pm, Deployed(ctx, pm), p.keys);
      q := p.(columns := p.columns + [column], keys := keys);
      ProcessIndexed(c, pm);
      if pm.kind == REFERENCE {
        var n := ctx.settings.naming;
        var pk := FollowKey(Table(ctx, c), n.column(pm.name), n.table(pm.refClass));
        if pk.Some? {
          var find := Lookup(n.table(pm.refClass), n.column(Deployed(ctx, pm).name), Saved(ctx, pk.value));
          q := q.(copies := p.copies + [Copy(n.column(pm.name), Saved(ctx, n.column(pm.name)), None, Some(find))]);
        }
      } else {
        var name := ColumnName(ctx, pm);
        q := q.(copies := p.copies + [Copy(name, Saved(ctx, name), ctx.settings.rules.cast(pm, Deployed(ctx, pm), info.dataType), None)]);
      }
      if IsKey(ctx, c, pm.name) {
        var fks := Exported(Table(ctx, c));
        NamesConcat(p.drops, fks);
        q := q.(drops := p.drops + fks);
      }
    }

    /** A column whose type or size no longer fits: it is renamed, and a new one takes its name. */
    method PlanMigration(c: ClassDef, pm: PropertyMeta, info: ColumnInfo, p: Pending) returns (q: Pending)
      requires Valid() && Resolvable(ctx) && KeyProperty(ctx, c).Some? && Relation(ctx, c, pm) !in relations
      requires pm.kind == REFERENCE && ctx.settings.referentialIntegrity ==> pm.refClass in ctx.classes
      requires SituationOf(ctx, c, pm) == Present(info, Migrate)
      requires forall i | 0 <= i < |p.drops| :: p.drops[i] in ctx.db.keys
      modifies this
      ensures Valid() && old(relations) <= relations <= old(relations) + {Relation(ctx, c, pm)}
      ensures plan == LogProperty(ctx, c, pm, old(plan))
      ensures Collects(ctx, c, pm, p, q)
      ensures dropped + NamesOf(q.drops) == old(dropped) + NamesOf(p.drops) + PropertyDrops(ctx, c, pm)
    {
      hide Numbered, Logged, SoundDrops, Keyed;
      MigrationParts(ctx, c, pm, info, plan);
      DropsOf(ctx, c, pm);
      hide LogProperty, PropertyChanges, PropertyColumns, PropertyCopies, OwnsRelation, DropsExportedKeys;
      hide PropertyDrops, SituationOf, Resolvable, ForeignKeys, RelationDrops, ExportedKeys, NamesOf;
      hide LogRelation, KeyProperty, MigratedCopies;
      LinksOf(ctx, c, pm, plan);
      hide LogCollection, LogKey;
      var name := ColumnName(ctx, pm);
      q := p.(renames := p.renames + [RenameColumn(Table(ctx, c), name, Saved(ctx, name))]);
      ReplaceKey(c, pm, info);
      if pm.kind == COLLECTION {
        PlanCollection(c, pm);
      } else {
        q := PlanMigratedColumn(c, pm, info, q);
      }
    }

    /** getInheritanceLevels: the map is filled depth first. */
    method FillLevels(levels: Levels, parent: string, level: nat) returns (r: Levels)
      requires parent in ctx.classes && NoEmptyLevel(levels)
      ensures Filled(ctx, levels, r, parent, level) && NoEmptyLevel(r)
      decreases Deeper(ctx, parent)
    {
      r := levels;
      for i := 0 to |ctx.order|
        invariant PartlyFilled(ctx, levels, r, parent, ctx.order[..i], level) && NoEmptyLevel(r)
      {
        var n := ctx.order[i];
        ghost var was := r;
        assert ctx.order[..i + 1] == ctx.order[..i] + [n];
        if n in ctx.classes && ctx.classes[n].ancestor == parent {
          ChildIsDeeper(ctx, n, parent);
          r := r[level := LevelAt(r, level) + [n]];
          r := FillLevels(r, n, level + 1);
        }
        FillStep(ctx, levels, was, r, parent, ctx.order[..i], n, level);
      }
      assert ctx.order[..|ctx.order|] == ctx.order;
      FillDone(ctx, levels, r, parent, level);
    }

    method AppendUpdates(script: seq<Update>, names: seq<string>) returns (r: seq<Update>)
      ensures r == script + UpdatesOf(ctx, names)
    {
      r := script;
      for i := 0 to |names|
        invariant r == script + UpdatesOf(ctx, names[..i])
      {
        assert names[..i + 1][..i] == names[..i];
        r := r + [Update(names[i], Some(ctx.settings.naming.table(names[i])))];
      }
      assert names[..|names|] == names;
    }

    /** The script that fills the discriminator, deepest level first. */
    method BackfillScript(root: string) returns (script: seq<Update>)
      requires root in ctx.classes
      ensures script == Script(ctx, root)
    {
      var levels := FillLevels(map[], root, 0);
      LevelCount(ctx, levels, root);
      script := [];
      for level := |levels| downto 0
        invariant level <= |levels|
        invariant ScriptFrom(ctx, root, |levels|) == script + ScriptFrom(ctx, root, level)
      {
        Listing.Regroup(script, UpdatesOf(ctx, levels[level]), ScriptFrom(ctx, root, level));
        script := AppendUpdates(script, levels[level]);
      }
      script := script + [Update(root, None)];
    }

    /** A column that only has to grow. A REFERENCE never does, so no foreign key is made here. */
    method PlanWidening(c: ClassDef, pm: PropertyMeta, info: ColumnInfo, p: Pending) returns (q: Pending)
      requires Valid() && SituationOf(ctx, c, pm) == Present(info, Widen)
      requires forall i | 0 <= i < |p.drops| :: p.drops[i] in ctx.db.keys
      modifies `counter, `buckets, `owner, `plan
      ensures Valid()
      ensures plan == LogProperty(ctx, c, pm, old(plan))
      ensures Collects(ctx, c, pm, p, q)
      ensures NamesOf(q.drops) == NamesOf(p.drops) + PropertyDrops(ctx, c, pm)
    {
      hide Numbered, Logged, SoundDrops, Keyed;
      WideningParts(ctx, c, pm, info, plan);
      q := p;
      Emit(ModifyTypes, ModifyDataType(Table(ctx, c), ColumnName(ctx, pm), ctx.settings.rules.deployedType(Deployed(ctx, pm))));
      if IsKey(ctx, c, pm.name) {
        var fks := Exported(Table(ctx, c));
        NamesConcat(p.drops, fks);
        q := p.(drops := p.drops + fks);
      }
    }

    method EmitBackfill(c: ClassDef, pm: PropertyMeta)
      requires Valid() && c.name in ctx.classes
      modifies `counter, `buckets, `owner, `plan
      ensures Valid() && plan == Put(old(plan), DataMigrate, BackfillOf(ctx, c, pm))
    {
      hide Numbered, Logged, SoundDrops, Keyed, Script;
      var script := BackfillScript(c.name);
      Emit(DataMigrate, Backfill(Table(ctx, c), ColumnName(ctx, pm), ctx.settings.naming.column(c.key), script));
    }

    /** The new column of an existing table; a new discriminator is filled. */
    method PlanAddedColumn(c: ClassDef, pm: PropertyMeta, p: Pending) returns (q: Pending)
      requires Valid() && Resolvable(ctx) && c.name in ctx.classes
      requires pm.kind == REFERENCE && ctx.settings.referentialIntegrity ==> pm.refClass in ctx.classes
      modifies `counter, `buckets, `owner, `plan
      ensures Valid() && plan == if IsDiscriminator(ctx, c, pm) then Put(old(plan), DataMigrate, BackfillOf(ctx, c, pm)) else old(plan)
      ensures var name := if IsDiscriminator(ctx, c, pm) then pm.name else ctx.settings.naming.column(pm.name);
              q == p.(columns := p.columns + [NewColumn(name, ctx.settings.rules.deployedType(Deployed(ctx, pm)))],
                      keys := p.keys + ForeignKeys(ctx, c, pm))
    {
      hide Numbered, Logged, SoundDrops, Keyed, ForeignKeys, BackfillOf, KeyProperty;
      var column, keys := ColumnSetup(c, pm, Deployed(ctx, pm), p.keys);
      if IsDiscriminator(ctx, c, pm) {
        column := column.(name := pm.name);
        EmitBackfill(c, pm);
      }
      q := p.(columns := p.columns + [column], keys := keys);
    }

    /** A property of an existing table that has no column yet. */
    method PlanAddition(c: ClassDef, pm: PropertyMeta, p: Pending) returns (q: Pending)
      requires Valid() && Resolvable(ctx) && c.name in ctx.classes && KeyProperty(ctx, c).Some? && Relation(ctx, c, pm) !in relations
      requires pm.kind == REFERENCE && ctx.settings.referentialIntegrity ==> pm.refClass in ctx.classes
      requires SituationOf(ctx, c, pm) == Absent
      requires forall i | 0 <= i < |p.drops| :: p.drops[i] in ctx.db.keys
      modifies this
      ensures Valid() && old(relations) <= relations <= old(relations) + {Relation(ctx, c, pm)}
      ensures plan == LogProperty(ctx, c, pm, old(plan))
      ensures Collects(ctx, c, pm, p, q)
      ensures dropped + NamesOf(q.drops) == old(dropped) + NamesOf(p.drops) + PropertyDrops(ctx, c, pm)
    {
      hide Numbered, Logged, SoundDrops, Keyed;
      AdditionParts(ctx, c, pm, plan);
      DropsOf(ctx, c, pm);
      LinksOf(ctx, c, pm, plan);
      hide LogProperty, PropertyChanges, PropertyColumns, PropertyCopies, OwnsRelation, DropsExportedKeys;
      hide PropertyDrops, SituationOf, Resolvable, ForeignKeys, RelationDrops, ExportedKeys, NamesOf;
      hide LogRelation, LogCollection, KeyProperty;
      q := p;
      if pm.kind == COLLECTION {
        PlanCollection(c, pm);
      } else {
        q := PlanAddedColumn(c, pm, p);
      }
    }

    /** A property of a table that is to be created. */
    method PlanNewColumn(c: ClassDef, pm: PropertyMeta, p: Pending) returns (q: Pending)
      requires Valid() && Resolvable(ctx) && KeyProperty(ctx, c).Some? && Relation(ctx, c, pm) !in relations
      requires pm.kind == REFERENCE && ctx.settings.referentialIntegrity ==> pm.refClass in ctx.classes
      requires SituationOf(ctx, c, pm) == Fresh
      requires forall i | 0 <= i < |p.drops| :: p.drops[i] in ctx.db.keys
      modifies this
      ensures Valid() && old(relations) <= relations <= old(relations) + {Relation(ctx, c, pm)}
      ensures plan == LogProperty(ctx, c, pm, old(plan))
      ensures q.drops == p.drops
      ensures Collects(ctx, c, pm, p, q)
      ensures dropped + NamesOf(q.drops) == old(dropped) + NamesOf(p.drops) + PropertyDrops(ctx, c, pm)
    {
      hide Numbered, Logged, SoundDrops, Keyed;
      FreshParts(ctx, c, pm, plan);
      DropsOf(ctx, c, pm);
      LinksOf(ctx, c, pm, plan);
      hide LogProperty, PropertyChanges, PropertyColumns, PropertyCopies, OwnsRelation, DropsExportedKeys;
      hide PropertyDrops, SituationOf, Resolvable, ForeignKeys, RelationDrops, ExportedKeys, NamesOf;
      hide LogRelation, LogCollection, KeyProperty;
      q := p;
      if pm.kind == COLLECTION {
        PlanCollection(c, pm);
      } else if IsRoot(ctx, c) || !IsKey(ctx, c, pm.name) {
        var column, keys := ColumnSetup(c, pm, Deployed(ctx, pm), p.keys);
        if IsDiscriminator(ctx, c, pm) {
          column := column.(name := pm.name);
        }
        q := p.(columns := p.columns + [column], keys := keys);
        ProcessIndexed(c, pm);
      }
    }

    /** One property of one class. */
    method PlanProperty(c: ClassDef, pm: PropertyMeta, p: Pending) returns (q: Pending)
      requires Valid() && Resolvable(ctx) && c.name in ctx.classes && KeyProperty(ctx, c).Some? && Relation(ctx, c, pm) !in relations
      requires pm.kind == REFERENCE && ctx.settings.referentialIntegrity ==> pm.refClass in ctx.classes
      requires forall i | 0 <= i < |p.drops| :: p.drops[i] in ctx.db.keys
      modifies this
      ensures Valid() && old(relations) <= relations <= old(relations) + {Relation(ctx, c, pm)}
      ensures plan == LogProperty(ctx, c, pm, old(plan))
      ensures Table(ctx, c) !in ctx.db.tables ==> q.drops == p.drops
      ensures Collects(ctx, c, pm, p, q)
      ensures dropped + NamesOf(q.drops) == old(dropped) + NamesOf(p.drops) + PropertyDrops(ctx, c, pm)
    {
      hide Numbered, Logged, SoundDrops, Keyed, Resolvable, KeyProperty;
      match SituationOf(ctx, c, pm) {
        case Fresh =>
          q := PlanNewColumn(c, pm, p);
        case Absent =>
          q := PlanAddition(c, pm, p);
        case Present(info, Migrate) =>
          q := PlanMigration(c, pm, info, p);
        case Present(info, Widen) =>
          q := PlanWidening(c, pm, info, p);
        case Present(info, Keep) =>
          KeepingParts(ctx, c, pm, info, plan);
          q := p;
      }
    }

    /** The loop over the properties of one class. */
    method WalkProperties(c: ClassDef, ps: seq<PropertyMeta>, p0: Pending) returns (p: Pending)
      requires Valid() && Resolvable(ctx) && c.name in ctx.classes && KeyProperty(ctx, c).Some?
      requires ReferencesResolve(ctx, ps) && RelationsFresh(ctx, c, ps, relations)
      requires p0.copies == [] && p0.renames == [] && p0.drops == []
      modifies this
      ensures Valid() && old(relations) <= relations <= old(relations) + RelationsOf(ctx, c, ps)
      ensures plan == LogProperties(ctx, c, ps, old(plan))
      ensures Collected(ctx, c, ps, p0, p)
      ensures Table(ctx, c) !in ctx.db.tables ==> p.drops == []
      ensures dropped + NamesOf(p.drops) == old(dropped) + ClassDrops(ctx, c, ps)
    {
      hide Numbered, Logged, SoundDrops, Keyed, LogProperty, PropertyDrops, Resolvable, KeyProperty;
      hide AllColumns, AllCopies, AllPropertyChanges, Collects, RelationsFresh, RelationsOf;
      p := p0;
      NothingWalked(ctx, c, p0);
      assert ps[..0] == [];
      for i := 0 to |ps|
        invariant Valid() && old(relations) <= relations <= old(relations) + RelationsOf(ctx, c, ps[..i])
        invariant plan == LogProperties(ctx, c, ps[..i], old(plan))
        invariant Collected(ctx, c, ps[..i], p0, p)
        invariant Table(ctx, c) !in ctx.db.tables ==> p.drops == []
        invariant dropped + NamesOf(p.drops) == old(dropped) + ClassDrops(ctx, c, ps[..i])
      {
        RelationsSnoc(ctx, c, ps, i, old(relations));
        var q := PlanProperty(c, ps[i], p);
        CollectedSnoc(ctx, c, ps, i, p0, p, q);
        assert ps[..i + 1][..i] == ps[..i];
        p := q;
      }
      assert ps[..|ps|] == ps;
    }

    method CollectExisting(c: ClassDef, ps: seq<PropertyMeta>) returns (p: Pending)
      requires Valid() && Resolvable(ctx) && c.name in ctx.classes && ctx.classes[c.name] == c
      requires ReferencesResolve(ctx, ps) && RelationsFresh(ctx, c, ps, relations)
      modifies this
      ensures Valid() && old(relations) <= relations <= old(relations) + RelationsOf(ctx, c, ps)
      ensures plan == LogProperties(ctx, c, ps, old(plan))
      ensures p.columns == AllColumns(ctx, c, ps) + KeyColumns(ctx, c) && p.copies == AllCopies(ctx, c, ps)
      ensures p.renames == AllPropertyChanges(ctx, c, ps, RenameColumns)
      ensures p.keys == AllPropertyChanges(ctx, c, ps, CreateFKs) + KeyForeignKeys(ctx, c)
      ensures forall i | 0 <= i < |p.drops| :: p.drops[i] in ctx.db.keys
      ensures dropped + NamesOf(p.drops) == old(dropped) + ClassDrops(ctx, c, ps)
    {
      hide Numbered, Logged, SoundDrops, Keyed, LogProperties, ClassDrops, PropertyChanges, AllColumns;
      hide AllCopies, AllPropertyChanges, KeyColumns, KeyForeignKeys, RelationsFresh, RelationsOf;
      assert ResolvableClass(ctx, ctx.classes[c.name]);
      p := WalkProperties(c, ps, Pending([], [], [], [], []));
      var columns, keys := AddKeyColumn(c, p.columns, p.keys);
      p := p.(columns := columns, keys := keys);
    }

    /** A table that exists. */
    method PlanExistingTable(c: ClassDef, ps: seq<PropertyMeta>)
      requires Valid() && Resolvable(ctx) && c.name in ctx.classes && ctx.classes[c.name] == c && Table(ctx, c) in ctx.db.tables
      requires ReferencesResolve(ctx, ps) && RelationsFresh(ctx, c, ps, relations)
      modifies this
      ensures Valid() && old(relations) <= relations <= old(relations) + RelationsOf(ctx, c, ps)
      ensures plan == LogExistingClass(ctx, c, ps, old(plan))
      ensures dropped == old(dropped) + ClassDrops(ctx, c, ps)
    {
      var p := CollectExisting(c, ps);
      ExistingTableLog(ctx, c, ps, old(plan), p.columns, p.renames, p.copies, p.keys);
      FinishTable(Table(ctx, c), p.columns, p.renames, p.copies, p.keys, p.drops);
    }

    /** The changes of an existing table that are collected over its properties. */
    method FinishTable(t: string, columns: seq<NewColumn>, renames: seq<Change>, copies: seq<Copy>, keys: seq<Change>, drops: seq<ForeignKey>)
      requires Valid() && forall i | 0 <= i < |drops| :: drops[i] in ctx.db.keys
      modifies `counter, `buckets, `owner, `plan, `dropped
      ensures Valid() && dropped == old(dropped) + NamesOf(drops)
      ensures plan == PutAll(PutIf(copies != [],
                                   PutAll(PutIf(columns != [], old(plan), AddedColumns, AddColumns(t, columns)), RenameColumns, renames),
                                   DataMigrate, CopyData(t, copies)),
                             CreateFKs, keys)
    {
      hide Numbered, Logged, SoundDrops, Keyed;
      EmitDrops(drops);
      if |columns| > 0 {
        Emit(AddedColumns, AddColumns(t, columns));
      }
      EmitAll(RenameColumns, renames);
      if |copies| > 0 {
        Emit(DataMigrate, CopyData(t, copies));
      }
      EmitAll(CreateFKs, keys);
    }

    method CollectNew(c: ClassDef, ps: seq<PropertyMeta>) returns (p: Pending)
      requires Valid() && Resolvable(ctx) && c.name in ctx.classes && ctx.classes[c.name] == c && Table(ctx, c) !in ctx.db.tables
      requires ReferencesResolve(ctx, ps) && RelationsFresh(ctx, c, ps, relations)
      modifies this
      ensures Valid() && old(relations) <= relations <= old(relations) + RelationsOf(ctx, c, ps)
      ensures plan == LogProperties(ctx, c, ps, old(plan))
      ensures p.columns == KeyColumns(ctx, c) + AllColumns(ctx, c, ps)
      ensures p.keys == KeyForeignKeys(ctx, c) + AllPropertyChanges(ctx, c, ps, CreateFKs)
      ensures dropped == old(dropped) + ClassDrops(ctx, c, ps)
    {
      hide Numbered, Logged, SoundDrops, Keyed, LogProperties, ClassDrops, PropertyChanges, AllColumns;
      hide AllCopies, AllPropertyChanges, KeyColumns, KeyForeignKeys, RelationsFresh, RelationsOf;
      assert ResolvableClass(ctx, ctx.classes[c.name]);
      var columns, keys := AddKeyColumn(c, [], []);
      p := WalkProperties(c, ps, Pending(columns, [], keys, [], []));
    }

    /** A table that is to be created. */
    method PlanNewTable(c: ClassDef, ps: seq<PropertyMeta>)
      requires Valid() && Resolvable(ctx) && c.name in ctx.classes && ctx.classes[c.name] == c && Table(ctx, c) !in ctx.db.tables
      requires ReferencesResolve(ctx, ps) && RelationsFresh(ctx, c, ps, relations)
      modifies this
      ensures Valid() && old(relations) <= relations <= old(relations) + RelationsOf(ctx, c, ps)
      ensures plan == LogNewClass(ctx, c, ps, old(plan))
      ensures dropped == old(dropped) + ClassDrops(ctx, c, ps)
    {
      var p := CollectNew(c, ps);
      NewTableLog(ctx, c, ps, old(plan), p.columns, p.keys);
      Emit(CreateTables, CreateTable(Table(ctx, c), p.columns));
      EmitAll(CreateFKs, p.keys);
    }

    /** The key column of a subclass, unless its table has it. */
    method AddKeyColumn(c: ClassDef, columns: seq<NewColumn>, keys: seq<Change>) returns (columns': seq<NewColumn>, keys': seq<Change>)
      requires Resolvable(ctx) && c.name in ctx.classes && ctx.classes[c.name] == c
      ensures columns' == columns + KeyColumns(ctx, c) && keys' == keys + KeyForeignKeys(ctx, c)
    {
      columns', keys' := columns, keys;
      assert ResolvableClass(ctx, ctx.classes[c.name]);
      if !IsRoot(ctx, c) {
        var pm := KeyProperty(ctx, c).value;
        if ColRef(Table(ctx, c), ctx.settings.naming.column(pm.name)) !in ctx.db.columns {
          KeyResolves(ctx, c);
          var column;
          column, keys' := ColumnSetup(c, pm, pm, keys);
          columns' := columns + [column];
        }
      }
    }

    method EmitDrops(fks: seq<ForeignKey>)
      requires Valid() && forall i | 0 <= i < |fks| :: fks[i] in ctx.db.keys
      modifies `counter, `buckets, `owner, `plan, `dropped
      ensures Valid() && plan == old(plan) && dropped == old(dropped) + NamesOf(fks)
    {
      hide Numbered, Logged, SoundDrops, Keyed;
      for i := 0 to |fks|
        invariant Valid() && plan == old(plan) && dropped == old(dropped) + NamesOf(fks[..i])
      {
        assert fks[..i + 1] == fks[..i] + [fks[i]];
        NamesSnoc(fks[..i], fks[i]);
        DropKey(fks[i]);
      }
      assert fks[..|fks|] == fks;
    }

    method EmitAll(b: Bucket, cs: seq<Change>)
      requires Valid() && b in {RenameColumns, CreateFKs}
      modifies `counter, `buckets, `owner, `plan
      ensures Valid() && plan == PutAll(old(plan), b, cs)
    {
      hide Numbered, Logged, SoundDrops, Keyed;
      for i := 0 to |cs|
        invariant Valid() && plan == PutAll(old(plan), b, cs[..i])
      {
        assert cs[..i + 1][..i] == cs[..i];
        Emit(b, cs[i]);
      }
      assert cs[..|cs|] == cs;
    }

    /** One class. */
    method PlanClass(c: ClassDef)
      requires Valid() && Resolvable(ctx) && c.name in ctx.classes && ctx.classes[c.name] == c
      requires ReferencesResolve(ctx, Properties(ctx, c)) && RelationsFresh(ctx, c, Properties(ctx, c), relations)
      modifies this
      ensures Valid() && old(relations) <= relations <= old(relations) + RelationsOf(ctx, c, Properties(ctx, c))
      ensures plan == LogClass(ctx, c, Properties(ctx, c), old(plan))
      ensures dropped == old(dropped) + ClassDrops(ctx, c, Properties(ctx, c))
    {
      if Table(ctx, c) in ctx.db.tables {
        PlanExistingTable(c, Properties(ctx, c));
      } else {
        PlanNewTable(c, Properties(ctx, c));
      }
    }

    /** The walk over the classes. */
    method PlanClasses()
      requires Valid() && Resolvable(ctx) && NamesApart(ctx)
      requires plan == Start && dropped == {} && relations == {}
      modifies this
      ensures Valid()
      ensures plan == LogClasses(ctx, ctx.order) && dropped == AllDrops(ctx, ctx.order)
    {
      hide Numbered, Logged, SoundDrops, Keyed, Properties, LogClass, ClassDrops, Resolvable;
      for i := 0 to |ctx.order|
        invariant Valid()
        invariant plan == LogClasses(ctx, ctx.order[..i]) && dropped == AllDrops(ctx, ctx.order[..i])
        invariant RelationsOfClasses(ctx, relations, ctx.order[..i])
      {
        var c := ctx.classes[ctx.order[i]];
        ClassReady(ctx, relations, i);
        ghost var met := relations;
        PlanClass(c);
        RelationsGrow(ctx, met, relations, c, i);
        assert ctx.order[..i + 1][..i] == ctx.order[..i];
      }
      assert ctx.order[..|ctx.order|] == ctx.order;
    }

    /** The buckets one after the other. */
    method Collect() returns (sets: seq<ChangeSet>, ghost parts: seq<seq<Change>>)
      requires Valid()
      ensures ChangesOf(sets) == Flatten(parts) && |parts| == 20
      ensures forall i | 0 <= i < 20 :: parts[i] == Contents(buckets, Emitted()[i])
      ensures forall i, j | 0 <= i < j < |sets| :: sets[i].index != sets[j].index
    {
      sets, parts := [], [];
      for k := 0 to 20
        invariant SoFar(buckets, owner, sets, parts, k)
      {
        SoFarStep(buckets, counter, owner, sets, parts, k);
        parts := parts + [Contents(buckets, Emitted()[k])];
        sets := sets + Bucketful(buckets, Emitted()[k]);
      }
    }

    /** generateChangeSets: the ids are distinct and the changes are those of the plan. */
    method GenerateChangeSets() returns (sets: seq<ChangeSet>, ghost parts: seq<seq<Change>>)
      requires Valid() && Resolvable(ctx) && NamesApart(ctx)
      requires plan == Start && dropped == {} && relations == {}
      modifies this
      ensures ChangesOf(sets) == Flatten(parts) && Emission(ctx, parts)
      ensures forall i, j | 0 <= i < j < |sets| :: Id(ctx, sets[i]) != Id(ctx, sets[j])
    {
      hide BucketChanges, LogClasses, AllDrops, Select, Resolvable, Numbered, SoundDrops, Keyed, Emitted;
      PlanClasses();
      sets, parts := Collect();
      IsEmission(ctx, buckets, plan, dropped, parts);
      forall i, j | 0 <= i < j < |sets| ensures Id(ctx, sets[i]) != Id(ctx, sets[j]) {
        IdsDiffer(ctx, sets[i], sets[j]);
      }
    }
  }

  /** The collected buckets are the plan. */
  lemma IsEmission(ctx: Deployment, bs: Buckets, log: Log, dropped: set<string>, parts: seq<seq<Change>>)
    requires Logged(bs, log) && SoundDrops(ctx, bs, dropped)
    requires log == LogClasses(ctx, ctx.order) && dropped == AllDrops(ctx, ctx.order)
    requires |parts| == 20 && forall i | 0 <= i < 20 :: parts[i] == Contents(bs, Emitted()[i])
    ensures Emission(ctx, parts)
  {
    hide BucketChanges, LogClasses, AllDrops, Select, SoundDrops, Contents, DropList;
    assert Emitted()[0] == DropFKs;
    DropsCollected(ctx, bs, dropped);
    forall i | 1 <= i < 20 ensures parts[i] == BucketChanges(ctx, ctx.order, Emitted()[i]) {
      SelectTotal(ctx, ctx.order, Emitted()[i]);
      assert !IsDropBucket(Emitted()[i]) && parts[i] == Contents(bs, Emitted()[i]);
    }
  }

  /** The id of a change set: the change log id, a dash and the running number. */
  function Id(ctx: Deployment, cs: ChangeSet): string {
    ctx.settings.changeLogId + "-" + Text.Decimal(cs.index)
  }

  lemma IdsDiffer(ctx: Deployment, a: ChangeSet, b: ChangeSet)
    requires a.index != b.index
    ensures Id(ctx, a) != Id(ctx, b)
  {
    if Id(ctx, a) == Id(ctx, b) {
      var p := ctx.settings.changeLogId + "-";
      assert Id(ctx, a)[|p|..] == Text.Decimal(a.index) && Id(ctx, b)[|p|..] == Text.Decimal(b.index);
      Text.DecimalInjective(a.index, b.index);
    }
  }

  lemma DropsCollected(ctx: Deployment, bs: Buckets, dropped: set<string>)
    requires SoundDrops(ctx, bs, dropped) && dropped == AllDrops(ctx, ctx.order)
    ensures DropList(ctx, Contents(bs, DropFKs))
  {
    var s, cs := Bucketful(bs, DropFKs), Contents(bs, DropFKs);
    forall i | 0 <= i < |cs| ensures DropsExisting(ctx, cs[i]) {
      assert cs[i] == s[i].change;
    }
    forall i, j | 0 <= i < j < |cs| ensures cs[i].name != cs[j].name {
      assert cs[i] == s[i].change && cs[j] == s[j].change;
    }
    forall n ensures n in dropped <==> exists i :: 0 <= i < |cs| && cs[i].DropForeignKey? && cs[i].name == n {
      if n in dropped {
        assert HoldsDrop(s, n);
        var i :| 0 <= i < |s| && s[i].change.DropForeignKey? && s[i].change.name == n;
        assert cs[i] == s[i].change;
      }
      if exists i :: 0 <= i < |cs| && cs[i].DropForeignKey? && cs[i].name == n {
        var i :| 0 <= i < |cs| && cs[i].DropForeignKey? && cs[i].name == n;
        assert cs[i] == s[i].change;
      }
    }
  }

  /** The change sets of the first k emitted buckets, with their parts. */
  ghost predicate SoFar(bs: Buckets, owner: map<nat, (Bucket, nat)>, sets: seq<ChangeSet>, parts: seq<seq<Change>>, k: nat)
    requires k <= 20
  {
    && |parts| == k && (forall i | 0 <= i < k :: parts[i] == Contents(bs, Emitted()[i]))
    && ChangesOf(sets) == Flatten(parts)
    && (forall i | 0 <= i < |sets| :: sets[i].index in owner && owner[sets[i].index].0 in Emitted()[..k])
    && (forall i, j | 0 <= i < j < |sets| :: sets[i].index != sets[j].index)
  }

  /** A bucket not collected yet shares no number with those collected. */
  lemma BucketApart(bs: Buckets, counter: nat, owner: map<nat, (Bucket, nat)>, sets: seq<ChangeSet>, k: nat)
    requires k < 20 && Numbered(bs, counter, owner)
    requires forall i | 0 <= i < |sets| :: sets[i].index in owner && owner[sets[i].index].0 in Emitted()[..k]
    ensures var all := sets + Bucketful(bs, Emitted()[k]);
            && (forall i | 0 <= i < |all| :: all[i].index in owner && owner[all[i].index].0 in Emitted()[..k + 1])
            && (forall i, j | 0 <= i < |sets| <= j < |all| :: all[i].index != all[j].index)
            && (forall i, j | |sets| <= i < j < |all| :: all[i].index != all[j].index)
  {
    assert Emitted()[..k + 1] == Emitted()[..k] + [Emitted()[k]];
    assert Emitted()[k] !in Emitted()[..k];
    var s := Bucketful(bs, Emitted()[k]);
    var all := sets + s;
    forall j | |sets| <= j < |all| ensures all[j].index in owner && owner[all[j].index] == (Emitted()[k], j - |sets|) {
      assert all[j] == s[j - |sets|];
    }
  }

  lemma SoFarStep(bs: Buckets, counter: nat, owner: map<nat, (Bucket, nat)>, sets: seq<ChangeSet>, parts: seq<seq<Change>>, k: nat)
    requires k < 20 && Numbered(bs, counter, owner) && SoFar(bs, owner, sets, parts, k)
    ensures SoFar(bs, owner, sets + Bucketful(bs, Emitted()[k]), parts + [Contents(bs, Emitted()[k])], k + 1)
  {
    hide Emitted, Numbered, Flatten, ChangesOf;
    var s := Bucketful(bs, Emitted()[k]);
    BucketApart(bs, counter, owner, sets, k);
    FlattenSnoc(parts, ChangesOf(s));
    ChangesConcat(sets, s);
    assert forall i, j | 0 <= i < j < |sets + s| :: (sets + s)[i].index != (sets + s)[j].index;
  }

  lemma ChangesConcat(a: seq<ChangeSet>, b: seq<ChangeSet>)
    ensures ChangesOf(a + b) == ChangesOf(a) + ChangesOf(b)
  {
  }

  lemma FlattenSnoc(parts: seq<seq<Change>>, p: seq<Change>)
    ensures Flatten(parts + [p]) == Flatten(parts) + p
  {
    assert (parts + [p])[..|parts|] == parts;
  }

  /** The relation tables met come from the classes in names. */
  ghost predicate RelationsOfClasses(ctx: Deployment, met: set<string>, names: seq<string>) {
    forall r | r in met :: exists n, p :: n in names && p in PropertyNames(ctx) && r == ctx.settings.naming.relation(n, p)
  }

  lemma {:induction false} WithoutFacts(ps: seq<PropertyMeta>, name: string)
    ensures forall p :: p in Without(ps, name) <==> p in ps && p.name != name
    ensures DistinctProperties(ps) ==> DistinctProperties(Without(ps, name))
  {
    if ps != [] {
      WithoutFacts(ps[1..], name);
      assert ps == [ps[0]] + ps[1..];
      var r := Without(ps[1..], name);
      if DistinctProperties(ps) && ps[0].name != name {
        forall j | 0 <= j < |r| ensures ps[0].name != r[j].name {
          assert r[j] in ps[1..];
        }
      }
    }
  }

  lemma DistinctIsStable(a: seq<PropertyMeta>, b: seq<PropertyMeta>)
    requires multiset(a) == multiset(b) && DistinctProperties(a)
    ensures DistinctProperties(b)
  {
    Listing.SameElements(a, b);
    assert Listing.Distinct(a);
    Listing.DistinctPermutes(a, b);
    forall i, j | 0 <= i < j < |b| ensures b[i].name != b[j].name {
      assert b[i] in b && b[j] in b;
      var k :| 0 <= k < |a| && a[k] == b[i];
      var l :| 0 <= l < |a| && a[l] == b[j];
    }
  }

  lemma InsertedFacts(ps: seq<PropertyMeta>, i: nat, d: PropertyMeta)
    requires DistinctProperties(ps) && forall p | p in ps :: p.name != d.name
    ensures DistinctProperties(Inserted(ps, i, d)) && forall p :: p in Inserted(ps, i, d) <==> p in ps || p == d
  {
    var k, r := if i <= |ps| then i else |ps|, Inserted(ps, i, d);
    assert forall j | 0 <= j < |r| :: r[j] == if j < k then ps[j] else if j == k then d else ps[j - 1];
    hide Inserted;
    forall a, b | 0 <= a < b < |r| ensures r[a].name != r[b].name {
      if a == k {
        assert r[b] in ps;
      } else if b == k {
        assert r[a] in ps;
      }
    }
    forall p ensures p in r <==> p in ps || p == d {
      if p in ps {
        var j :| 0 <= j < |ps| && ps[j] == p;
        assert r[if j < k then j else j + 1] == p;
      }
      assert r[k] == d;
    }
  }

  lemma PropertiesFacts(ctx: Deployment, c: ClassDef)
    requires DistinctProperties(c.properties) && ReferencesResolve(ctx, c.properties)
    ensures DistinctProperties(Properties(ctx, c)) && ReferencesResolve(ctx, Properties(ctx, c))
    ensures forall p :: p in Properties(ctx, c) <==>
              if ctx.settings.useDiscriminator && IsRoot(ctx, c) && p.name == ctx.settings.discriminator
              then p == DiscriminatorProperty(ctx.settings) else p in c.properties
  {
    var d := DiscriminatorProperty(ctx.settings);
    WithoutFacts(c.properties, d.name);
    var ps := Unsorted(ctx, c);
    if ctx.settings.useDiscriminator && IsRoot(ctx, c) {
      InsertedFacts(Without(c.properties, d.name), ctx.place(c.name), d);
    }
    Listing.SortPermutes(ps, NotAfter);
    DistinctIsStable(ps, Properties(ctx, c));
    var qs := Properties(ctx, c);
    forall i | 0 <= i < |qs| && qs[i].kind == REFERENCE && ctx.settings.referentialIntegrity ensures qs[i].refClass in ctx.classes {
      assert qs[i] in qs;
      assert qs[i] in c.properties;
      var k :| 0 <= k < |c.properties| && c.properties[k] == qs[i];
    }
  }

  lemma ClassReady(ctx: Deployment, met: set<string>, i: nat)
    requires i < |ctx.order| && Resolvable(ctx) && NamesApart(ctx)
    requires RelationsOfClasses(ctx, met, ctx.order[..i])
    ensures var c := ctx.classes[ctx.order[i]];
            && c.name == ctx.order[i]
            && ReferencesResolve(ctx, Properties(ctx, c)) && RelationsFresh(ctx, c, Properties(ctx, c), met)
  {
    var n := ctx.order[i];
    var c := ctx.classes[n];
    assert Grounded(ctx, n) && ResolvableClass(ctx, ctx.classes[n]);
    PropertiesFacts(ctx, c);
    var ps := Properties(ctx, c);
    PropertiesNamed(ctx, c);
    forall m | m in ctx.order[..i] ensures m in ctx.classes && m != n {
      assert m in ctx.order;
    }
    forall k | 0 <= k < |ps| ensures Relation(ctx, c, ps[k]) !in met && ps[k].name in PropertyNames(ctx) {
      assert ps[k] in ps;
    }
  }

  lemma PropertiesNamed(ctx: Deployment, c: ClassDef)
    requires Resolvable(ctx) && c.name in ctx.classes && ctx.classes[c.name] == c
    ensures forall p | p in Properties(ctx, c) :: p.name in PropertyNames(ctx)
  {
    assert ResolvableClass(ctx, ctx.classes[c.name]);
    PropertiesFacts(ctx, c);
    forall p | p in Properties(ctx, c) ensures p.name in PropertyNames(ctx) {
      if p in c.properties {
        NamedInModel(ctx, c.name, p);
      }
    }
  }

  lemma RelationsGrow(ctx: Deployment, met: set<string>, now: set<string>, c: ClassDef, i: nat)
    requires i < |ctx.order| && Resolvable(ctx) && c == ctx.classes[ctx.order[i]] && c.name == ctx.order[i] && RelationsOfClasses(ctx, met, ctx.order[..i])
    requires now <= met + RelationsOf(ctx, c, Properties(ctx, c))
    ensures RelationsOfClasses(ctx, now, ctx.order[..i + 1])
  {
    assert ctx.order[..i + 1] == ctx.order[..i] + [ctx.order[i]];
    PropertiesNamed(ctx, c);
    forall r | r in now ensures exists n, p :: n in ctx.order[..i + 1] && p in PropertyNames(ctx) && r == ctx.settings.naming.relation(n, p) {
      if r in met {
        var n, p :| n in ctx.order[..i] && p in PropertyNames(ctx) && r == ctx.settings.naming.relation(n, p);
        assert n in ctx.order[..i + 1];
      } else {
        var ps := Properties(ctx, c);
        var k :| 0 <= k < |ps| && r == Relation(ctx, c, ps[k]);
        assert ps[k] in ps && c.name in ctx.order[..i + 1] && r == ctx.settings.naming.relation(c.name, ps[k].name);
      }
    }
  }

  ghost function RelationsOf(ctx: Deployment, c: ClassDef, ps: seq<PropertyMeta>): set<string> {
    set i | 0 <= i < |ps| :: Relation(ctx, c, ps[i])
  }

  /** The relation tables of a class are distinct and none of them has been met. */
  ghost predicate RelationsFresh(ctx: Deployment, c: ClassDef, ps: seq<PropertyMeta>, met: set<string>) {
    && (forall i | 0 <= i < |ps| :: Relation(ctx, c, ps[i]) !in met)
    && (forall i, j | 0 <= i < j < |ps| :: Relation(ctx, c, ps[i]) != Relation(ctx, c, ps[j]))
  }

  lemma RelationsSnoc(ctx: Deployment, c: ClassDef, ps: seq<PropertyMeta>, i: nat, met: set<string>)
    requires i < |ps| && RelationsFresh(ctx, c, ps, met)
    ensures Relation(ctx, c, ps[i]) !in met + RelationsOf(ctx, c, ps[..i])
    ensures RelationsOf(ctx, c, ps[..i + 1]) == RelationsOf(ctx, c, ps[..i]) + {Relation(ctx, c, ps[i])}
  {
    var s, t := ps[..i], ps[..i + 1];
    forall r ensures r in RelationsOf(ctx, c, t) <==> r in RelationsOf(ctx, c, s) + {Relation(ctx, c, ps[i])} {
      if r in RelationsOf(ctx, c, s) {
        var k :| 0 <= k < |s| && Relation(ctx, c, s[k]) == r;
        assert t[k] == s[k];
      }
      if r in RelationsOf(ctx, c, t) {
        var k :| 0 <= k < |t| && Relation(ctx, c, t[k]) == r;
        assert k < i ==> s[k] == t[k];
      }
      assert t[i] == ps[i];
    }
  }

  /** The lists after the properties ps. */
  ghost predicate Collected(ctx: Deployment, c: ClassDef, ps: seq<PropertyMeta>, p0: Pending, p: Pending) {
    && p.columns == p0.columns + AllColumns(ctx, c, ps)
    && p.copies == p0.copies + AllCopies(ctx, c, ps)
    && p.keys == p0.keys + AllPropertyChanges(ctx, c, ps, CreateFKs)
    && p.renames == p0.renames + AllPropertyChanges(ctx, c, ps, RenameColumns)
    && (forall i | 0 <= i < |p.drops| :: p.drops[i] in ctx.db.keys)
  }

  lemma NothingWalked(ctx: Deployment, c: ClassDef, p0: Pending)
    requires p0.drops == []
    ensures RelationsOf(ctx, c, []) == {} && Collected(ctx, c, [], p0, p0)
  {
  }

  lemma CollectedSnoc(ctx: Deployment, c: ClassDef, ps: seq<PropertyMeta>, i: nat, p0: Pending, p: Pending, q: Pending)
    requires i < |ps| && Collected(ctx, c, ps[..i], p0, p) && Collects(ctx, c, ps[i], p, q)
    ensures Collected(ctx, c, ps[..i + 1], p0, q)
  {
    assert ps[..i + 1][..i] == ps[..i];
    Listing.Regroup(p0.columns, AllColumns(ctx, c, ps[..i]), PropertyColumns(ctx, c, ps[i]));
    Listing.Regroup(p0.copies, AllCopies(ctx, c, ps[..i]), PropertyCopies(ctx, c, ps[i]));
    Listing.Regroup(p0.keys, AllPropertyChanges(ctx, c, ps[..i], CreateFKs), PropertyChanges(ctx, c, ps[i], CreateFKs));
    Listing.Regroup(p0.renames, AllPropertyChanges(ctx, c, ps[..i], RenameColumns), PropertyChanges(ctx, c, ps[i], RenameColumns));
  }

  /** The key property is among the properties of the root, so its reference resolves too. */
  lemma KeyResolves(ctx: Deployment, c: ClassDef)
    requires Resolvable(ctx) && c.name in ctx.classes && ctx.classes[c.name] == c
    ensures KeyProperty(ctx, c).Some?
    ensures var pm := KeyProperty(ctx, c).value;
            pm.kind == REFERENCE && ctx.settings.referentialIntegrity ==> pm.refClass in ctx.classes
  {
    assert ResolvableClass(ctx, ctx.classes[c.name]);
    RootFacts(ctx, c);
    var r := Root(ctx, c);
    assert ResolvableClass(ctx, ctx.classes[r.name]);
    FindFacts(r.properties, r.key);
    var i :| 0 <= i < |r.properties| && r.properties[i] == KeyProperty(ctx, c).value;
  }

  lemma ExistingTableLog(ctx: Deployment, c: ClassDef, ps: seq<PropertyMeta>, log: Log, columns: seq<NewColumn>,
                         renames: seq<Change>, copies: seq<Copy>, keys: seq<Change>)
    requires columns == AllColumns(ctx, c, ps) + KeyColumns(ctx, c) && copies == AllCopies(ctx, c, ps)
    requires renames == AllPropertyChanges(ctx, c, ps, RenameColumns)
    requires keys == AllPropertyChanges(ctx, c, ps, CreateFKs) + KeyForeignKeys(ctx, c)
    ensures LogExistingClass(ctx, c, ps, log) ==
              PutAll(PutIf(copies != [],
                           PutAll(PutIf(columns != [], LogProperties(ctx, c, ps, log), AddedColumns, AddColumns(Table(ctx, c), columns)), RenameColumns, renames),
                           DataMigrate, CopyData(Table(ctx, c), copies)),
                     CreateFKs, keys)
  {
  }

  lemma NewTableLog(ctx: Deployment, c: ClassDef, ps: seq<PropertyMeta>, log: Log, columns: seq<NewColumn>, keys: seq<Change>)
    requires columns == KeyColumns(ctx, c) + AllColumns(ctx, c, ps)
    requires keys == KeyForeignKeys(ctx, c) + AllPropertyChanges(ctx, c, ps, CreateFKs)
    ensures LogNewClass(ctx, c, ps, log) ==
              PutAll(Put(LogProperties(ctx, c, ps, log), CreateTables, CreateTable(Table(ctx, c), columns)), CreateFKs, keys)
  {
  }

  lemma AdditionParts(ctx: Deployment, c: ClassDef, pm: PropertyMeta, log: Log)
    requires SituationOf(ctx, c, pm) == Absent
    ensures var coll, disc := pm.kind == COLLECTION, IsDiscriminator(ctx, c, pm);
            var name := if disc then pm.name else ctx.settings.naming.column(pm.name);
            && LogProperty(ctx, c, pm, log) ==
                 (if coll then LogCollection(ctx, c, pm, log) else if disc then Put(log, DataMigrate, BackfillOf(ctx, c, pm)) else log)
            && PropertyColumns(ctx, c, pm) == (if coll then [] else [NewColumn(name, ctx.settings.rules.deployedType(Deployed(ctx, pm)))])
            && PropertyCopies(ctx, c, pm) == []
            && PropertyChanges(ctx, c, pm, CreateFKs) == (if coll then [] else ForeignKeys(ctx, c, pm))
            && PropertyChanges(ctx, c, pm, RenameColumns) == []
            && OwnsRelation(ctx, c, pm) == (coll && IsBlank(pm.backRef) && IsBlank(pm.backColl) && pm.itemsClass in ctx.classes)
            && !DropsExportedKeys(ctx, c, pm)
  {
  }

  lemma FreshParts(ctx: Deployment, c: ClassDef, pm: PropertyMeta, log: Log)
    requires SituationOf(ctx, c, pm) == Fresh
    ensures var n, coll, disc := ctx.settings.naming, pm.kind == COLLECTION, IsDiscriminator(ctx, c, pm);
            var name := if disc then pm.name else n.column(pm.name);
            var gets := !coll && (IsRoot(ctx, c) || !IsKey(ctx, c, pm.name));
            && LogProperty(ctx, c, pm, log) ==
                 (if coll then LogCollection(ctx, c, pm, log)
                  else PutIf(gets && pm.indexed && !pm.unique, log, AddIndices, CreateIndex(Table(ctx, c), n.index(c.name, pm.name), n.column(pm.name))))
            && PropertyColumns(ctx, c, pm) == (if gets then [NewColumn(name, ctx.settings.rules.deployedType(Deployed(ctx, pm)))] else [])
            && PropertyCopies(ctx, c, pm) == []
            && PropertyChanges(ctx, c, pm, CreateFKs) == (if gets then ForeignKeys(ctx, c, pm) else [])
            && PropertyChanges(ctx, c, pm, RenameColumns) == []
            && OwnsRelation(ctx, c, pm) == (coll && IsBlank(pm.backRef) && IsBlank(pm.backColl) && pm.itemsClass in ctx.classes)
            && !DropsExportedKeys(ctx, c, pm)
  {
  }

  lemma WideningParts(ctx: Deployment, c: ClassDef, pm: PropertyMeta, info: ColumnInfo, log: Log)
    requires SituationOf(ctx, c, pm) == Present(info, Widen)
    ensures && LogProperty(ctx, c, pm, log) ==
                 Put(log, ModifyTypes, ModifyDataType(Table(ctx, c), ColumnName(ctx, pm), ctx.settings.rules.deployedType(Deployed(ctx, pm))))
            && PropertyColumns(ctx, c, pm) == [] && PropertyCopies(ctx, c, pm) == []
            && PropertyChanges(ctx, c, pm, CreateFKs) == [] && PropertyChanges(ctx, c, pm, RenameColumns) == []
            && !OwnsRelation(ctx, c, pm) && DropsExportedKeys(ctx, c, pm) == IsKey(ctx, c, pm.name)
  {
  }

  lemma KeepingParts(ctx: Deployment, c: ClassDef, pm: PropertyMeta, info: ColumnInfo, log: Log)
    requires SituationOf(ctx, c, pm) == Present(info, Keep)
    ensures && LogProperty(ctx, c, pm, log) == log
            && PropertyColumns(ctx, c, pm) == [] && PropertyCopies(ctx, c, pm) == []
            && PropertyChanges(ctx, c, pm, CreateFKs) == [] && PropertyChanges(ctx, c, pm, RenameColumns) == []
            && PropertyDrops(ctx, c, pm) == {}
  {
  }

  type Levels = map<nat, seq<string>>

  function LevelAt(levels: Levels, k: nat): seq<string> {
    if k in levels then levels[k] else []
  }

  /** What a walk over the classes in names, looking for children of parent, adds to level k. */
  function Visited(ctx: Deployment, parent: string, names: seq<string>, level: nat, k: nat): seq<string> {
    var children := ChildrenAmong(ctx, parent, names);
    if k < level then [] else if k == level then children else LevelOver(ctx, children, k - level - 1)
  }

  ghost predicate NoEmptyLevel(levels: Levels) {
    forall k | k in levels :: levels[k] != []
  }

  /** r is levels with the levels below parent appended, the first one at level. */
  ghost predicate Filled(ctx: Deployment, levels: Levels, r: Levels, parent: string, level: nat) {
    forall k: nat {:trigger LevelAt(r, k)} :: LevelAt(r, k) == LevelAt(levels, k) + if k < level then [] else Level(ctx, parent, k - level)
  }

  ghost predicate PartlyFilled(ctx: Deployment, levels: Levels, r: Levels, parent: string, names: seq<string>, level: nat) {
    forall k: nat {:trigger LevelAt(r, k)} :: LevelAt(r, k) == LevelAt(levels, k) + Visited(ctx, parent, names, level, k)
  }

  lemma ChildIsDeeper(ctx: Deployment, n: string, parent: string)
    requires parent in ctx.classes && IsChild(ctx, parent, n)
    ensures Deeper(ctx, n) < Deeper(ctx, parent)
  {
    assert Grounded(ctx, n);
    assert n in Deeper(ctx, parent) && n !in Deeper(ctx, n);
  }

  lemma VisitedSnoc(ctx: Deployment, parent: string, names: seq<string>, n: string, level: nat, k: nat)
    ensures Visited(ctx, parent, names + [n], level, k) ==
              if !IsChild(ctx, parent, n) || k < level then Visited(ctx, parent, names, level, k)
              else Visited(ctx, parent, names, level, k) + if k == level then [n] else Level(ctx, n, k - level - 1)
  {
    assert (names + [n])[..|names|] == names;
    var children := ChildrenAmong(ctx, parent, names);
    assert ChildrenAmong(ctx, parent, names + [n]) == children + if IsChild(ctx, parent, n) then [n] else [];
    if IsChild(ctx, parent, n) {
      var more := children + [n];
      assert more[..|more| - 1] == children && more[|more| - 1] == n;
    } else {
      assert children + [] == children;
    }
  }

  lemma FillStep(ctx: Deployment, levels: Levels, was: Levels, r: Levels, parent: string, names: seq<string>, n: string, level: nat)
    requires PartlyFilled(ctx, levels, was, parent, names, level)
    requires if IsChild(ctx, parent, n) then Filled(ctx, was[level := LevelAt(was, level) + [n]], r, n, level + 1) else r == was
    ensures PartlyFilled(ctx, levels, r, parent, names + [n], level)
  {
    forall k: nat ensures LevelAt(r, k) == LevelAt(levels, k) + Visited(ctx, parent, names + [n], level, k) {
      assert LevelAt(was, k) == LevelAt(levels, k) + Visited(ctx, parent, names, level, k);
      VisitedSnoc(ctx, parent, names, n, level, k);
      if IsChild(ctx, parent, n) && k >= level {
        FillChildAt(ctx, was, r, n, level, k);
        Listing.Regroup(LevelAt(levels, k), Visited(ctx, parent, names, level, k), if k == level then [n] else Level(ctx, n, k - level - 1));
      } else if IsChild(ctx, parent, n) {
        FillChildAt(ctx, was, r, n, level, k);
      }
    }
  }

  lemma FillChildAt(ctx: Deployment, was: Levels, r: Levels, n: string, level: nat, k: nat)
    requires Filled(ctx, was[level := LevelAt(was, level) + [n]], r, n, level + 1)
    ensures LevelAt(r, k) == LevelAt(was, k) + if k < level then [] else if k == level then [n] else Level(ctx, n, k - level - 1)
  {
  }

  lemma FillDone(ctx: Deployment, levels: Levels, r: Levels, parent: string, level: nat)
    requires PartlyFilled(ctx, levels, r, parent, ctx.order, level)
    ensures Filled(ctx, levels, r, parent, level)
  {
    forall k: nat ensures LevelAt(r, k) == LevelAt(levels, k) + if k < level then [] else Level(ctx, parent, k - level) {
    }
  }

  /** The keys of the filled map are exactly 0, ..., Height - 1. */
  lemma LevelCount(ctx: Deployment, r: Levels, root: string)
    requires root in ctx.classes && Filled(ctx, map[], r, root, 0) && NoEmptyLevel(r)
    ensures |r| == Height(ctx, root) && forall k: nat | k < |r| :: k in r && r[k] == Level(ctx, root, k)
  {
    hide Filled, Level, Height, NoEmptyLevel;
    forall k: nat ensures k in r.Keys <==> k < Height(ctx, root) {
      LevelThere(ctx, r, root, k);
    }
    LevelKeys(r.Keys, Height(ctx, root));
    forall k: nat | k < |r| ensures k in r && r[k] == Level(ctx, root, k) {
      assert k in r.Keys;
      LevelThere(ctx, r, root, k);
    }
  }

  lemma LevelThere(ctx: Deployment, r: Levels, root: string, k: nat)
    requires root in ctx.classes && Filled(ctx, map[], r, root, 0) && NoEmptyLevel(r)
    ensures k in r <==> k < Height(ctx, root)
    ensures k in r ==> r[k] == Level(ctx, root, k)
  {
    hide Level, Height;
    InheritanceLevels.LevelsContiguous(ctx, root, k);
    assert LevelAt(r, k) == LevelAt(map[], k) + Level(ctx, root, k);
  }

  lemma {:induction false} LevelKeys(keys: set<nat>, h: nat)
    requires forall k: nat :: k in keys <==> k < h
    ensures |keys| == h
  {
    if h == 0 {
      assert keys == {};
    } else {
      LevelKeys(keys - {h - 1}, h - 1);
    }
  }

  lemma LinksOf(ctx: Deployment, c: ClassDef, pm: PropertyMeta, log: Log)
    ensures LogCollection(ctx, c, pm, log) ==
              if OwnsRelation(ctx, c, pm) then LogRelation(ctx, c, Find(ctx, pm.itemsClass).value, Relation(ctx, c, pm), log) else log
  {
    hide OwnsRelation, LogRelation;
  }

  lemma DropsOf(ctx: Deployment, c: ClassDef, pm: PropertyMeta)
    ensures PropertyDrops(ctx, c, pm) ==
              (if DropsExportedKeys(ctx, c, pm) then ExportedKeys(ctx, Table(ctx, c)) else {}) +
              (if OwnsRelation(ctx, c, pm) then RelationDrops(ctx, c, Find(ctx, pm.itemsClass).value, Relation(ctx, c, pm)) else {})
  {
    hide DropsExportedKeys, OwnsRelation, RelationDrops;
  }

  /** What a migrated property adds, spelled out. */
  lemma MigrationParts(ctx: Deployment, c: ClassDef, pm: PropertyMeta, info: ColumnInfo, log: Log)
    requires SituationOf(ctx, c, pm) == Present(info, Migrate)
    ensures var t, n, rules, name, coll := Table(ctx, c), ctx.settings.naming, ctx.settings.rules, ColumnName(ctx, pm), pm.kind == COLLECTION;
            var key := LogKey(ctx, c, pm, log);
            && LogProperty(ctx, c, pm, log) ==
                 (if coll then LogCollection(ctx, c, pm, key)
                  else PutIf(pm.indexed && !pm.unique, key, AddIndices, CreateIndex(t, n.index(c.name, pm.name), n.column(pm.name))))
            && PropertyColumns(ctx, c, pm) == (if coll then [] else [NewColumn(n.column(pm.name), rules.deployedType(Deployed(ctx, pm)))])
            && PropertyCopies(ctx, c, pm) == (if coll then [] else MigratedCopies(ctx, c, pm, info))
            && PropertyChanges(ctx, c, pm, CreateFKs) == (if coll then [] else ForeignKeys(ctx, c, pm))
            && PropertyChanges(ctx, c, pm, RenameColumns) == [RenameColumn(t, name, Saved(ctx, name))]
            && OwnsRelation(ctx, c, pm) == (coll && IsBlank(pm.backRef) && IsBlank(pm.backColl) && pm.itemsClass in ctx.classes)
            && DropsExportedKeys(ctx, c, pm) == (IsKey(ctx, c, pm.name) && !coll)
  {
    hide MigratedCopies;
  }

  lemma NamesConcat(a: seq<ForeignKey>, b: seq<ForeignKey>)
    ensures NamesOf(a + b) == NamesOf(a) + NamesOf(b)
  {
    var t := a + b;
    forall n ensures n in NamesOf(t) <==> n in NamesOf(a) + NamesOf(b) {
      if n in NamesOf(a) {
        var i :| 0 <= i < |a| && a[i].name == n;
        assert t[i].name == n;
      }
      if n in NamesOf(b) {
        var i :| 0 <= i < |b| && b[i].name == n;
        assert t[|a| + i].name == n;
      }
    }
  }

  lemma NamesSnoc(fks: seq<ForeignKey>, fk: ForeignKey)
    ensures NamesOf(fks + [fk]) == NamesOf(fks) + {fk.name}
  {
    var t := fks + [fk];
    forall n ensures n in NamesOf(t) <==> n in NamesOf(fks) + {fk.name} {
      if n in NamesOf(fks) {
        var i :| 0 <= i < |fks| && fks[i].name == n;
        assert t[i].name == n;
      }
      assert t[|fks|] == fk;
    }
  }
}
