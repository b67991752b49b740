/** Runs of changes that do not get in each other's way: whether they run through, which
    columns are there afterwards, and which of them keep their cells. One part of a plan is
    such a batch; what is said of it is said from the creations, removals and writes of its
    single changes, so that the order among them does not matter. */
module Batches {
  import opened Database

  /** a, applied first, leaves b applicable. */
  ghost predicate Compatible(a: Change, b: Change) {
    && Removes(a) !! Needs(b)
    && Creates(a) !! Creates(b)
    && (a.CreateTable? ==> a.table != b.table)
    && DropsKey(a) !! DropsKey(b)
    && AddsKey(a) !! AddsKey(b)
  }

  ghost predicate Independent(plan: seq<Change>) {
    forall i, j | 0 <= i < j < |plan| :: Compatible(plan[i], plan[j])
  }

  ghost predicate AllApply(db: Schema, plan: seq<Change>) {
    forall i | 0 <= i < |plan| :: CanApply(db, plan[i])
  }

  ghost predicate Creating(plan: seq<Change>, k: ColRef) {
    exists i :: 0 <= i < |plan| && k in Creates(plan[i])
  }

  ghost predicate Removing(plan: seq<Change>, k: ColRef) {
    exists i :: 0 <= i < |plan| && k in Removes(plan[i])
  }

  ghost predicate CreatingTable(plan: seq<Change>, t: string) {
    exists i :: 0 <= i < |plan| && plan[i].CreateTable? && plan[i].table == t
  }

  /** The columns whose cells a change assigns. */
  function Writes(ch: Change): set<ColRef> {
    match ch
    case CopyData(t, cs) => set i | 0 <= i < |cs| :: ColRef(t, cs[i].target)
    case Backfill(t, c, _, _) => {ColRef(t, c)}
    case _ => {}
  }

  function Retypes(ch: Change): set<ColRef> {
    match ch
    case ModifyDataType(t, c, _) => {ColRef(t, c)}
    case _ => {}
  }

  ghost predicate Writing(plan: seq<Change>, k: ColRef) {
    exists i :: 0 <= i < |plan| && k in Writes(plan[i])
  }

  ghost predicate Retyping(plan: seq<Change>, k: ColRef) {
    exists i :: 0 <= i < |plan| && k in Retypes(plan[i])
  }

  lemma StillApplies(engine: Engine, db: Schema, a: Change, b: Change)
    requires WellFormed(db) && CanApply(db, a) && CanApply(db, b) && Compatible(a, b)
    ensures WellFormed(Apply(engine, db, a)) && CanApply(Apply(engine, db, a), b)
  {
    hide WellFormed, Apply, Needs, Creates, Removes, DropsKey, AddsKey, KeyNames;
    ApplyEffect(engine, db, a);
    ApplyKeys(engine, db, a);
  }

  /** A batch of independent, applicable changes runs through. */
  lemma {:induction false} BatchRuns(engine: Engine, db: Schema, plan: seq<Change>)
    requires WellFormed(db) && AllApply(db, plan) && Independent(plan)
    ensures Run(engine, db, plan).Some?
    decreases |plan|
  {
    if plan != [] {
      var next := Apply(engine, db, plan[0]);
      ApplyEffect(engine, db, plan[0]);
      forall i | 0 <= i < |plan[1..]| ensures CanApply(next, plan[1..][i]) {
        StillApplies(engine, db, plan[0], plan[1..][i]);
      }
      BatchRuns(engine, next, plan[1..]);
    }
  }

  /** Which tables and columns are there after a run that creates nothing it also removes. */
  lemma {:induction false} RunKeys(engine: Engine, db: Schema, plan: seq<Change>)
    requires WellFormed(db) && Run(engine, db, plan).Some?
    requires forall k :: !(Creating(plan, k) && Removing(plan, k))
    ensures var r := Run(engine, db, plan).value;
            && (forall k :: k in r.columns <==> (k in db.columns && !Removing(plan, k)) || Creating(plan, k))
            && (forall t :: t in r.tables <==> t in db.tables || CreatingTable(plan, t))
            && (forall t | t in db.tables :: t in r.tables && r.tables[t] == db.tables[t])
    decreases |plan|
  {
    if plan != [] {
      var rest := plan[1..];
      ApplyEffect(engine, db, plan[0]);
      assert plan == [plan[0]] + rest;
      forall k ensures Creating(plan, k) <==> k in Creates(plan[0]) || Creating(rest, k) {
        if Creating(rest, k) {
          var i :| 0 <= i < |rest| && k in Creates(rest[i]);
          assert k in Creates(plan[i + 1]);
        }
      }
      forall k ensures Removing(plan, k) <==> k in Removes(plan[0]) || Removing(rest, k) {
        if Removing(rest, k) {
          var i :| 0 <= i < |rest| && k in Removes(rest[i]);
          assert k in Removes(plan[i + 1]);
        }
      }
      forall t ensures CreatingTable(plan, t) <==> (plan[0].CreateTable? && plan[0].table == t) || CreatingTable(rest, t) {
        if CreatingTable(rest, t) {
          var i :| 0 <= i < |rest| && rest[i].CreateTable? && rest[i].table == t;
          assert plan[i + 1].CreateTable? && plan[i + 1].table == t;
        }
      }
      RunKeys(engine, Apply(engine, db, plan[0]), rest);
    }
  }

  ghost predicate DroppingKey(plan: seq<Change>, k: (string, string)) {
    exists i :: 0 <= i < |plan| && k in DropsKey(plan[i])
  }

  ghost predicate AddingKey(plan: seq<Change>, k: (string, string)) {
    exists i :: 0 <= i < |plan| && k in AddsKey(plan[i])
  }

  lemma KeysOfRest(plan: seq<Change>, k: (string, string))
    requires plan != []
    ensures DroppingKey(plan, k) <==> k in DropsKey(plan[0]) || DroppingKey(plan[1..], k)
    ensures AddingKey(plan, k) <==> k in AddsKey(plan[0]) || AddingKey(plan[1..], k)
  {
    hide DropsKey, AddsKey;
    var rest := plan[1..];
    assert plan == [plan[0]] + rest;
    if DroppingKey(rest, k) {
      var i :| 0 <= i < |rest| && k in DropsKey(rest[i]);
      assert k in DropsKey(plan[i + 1]);
    }
    if AddingKey(rest, k) {
      var i :| 0 <= i < |rest| && k in AddsKey(rest[i]);
      assert k in AddsKey(plan[i + 1]);
    }
  }

  /** Which foreign keys are there after a run that adds none it also drops. */
  lemma {:induction false} RunForeignKeys(engine: Engine, db: Schema, plan: seq<Change>)
    requires WellFormed(db) && Run(engine, db, plan).Some?
    requires forall k :: !(DroppingKey(plan, k) && AddingKey(plan, k))
    ensures var r := Run(engine, db, plan).value;
            forall k :: k in KeyNames(r) <==> (k in KeyNames(db) && !DroppingKey(plan, k)) || AddingKey(plan, k)
    decreases |plan|
  {
    hide WellFormed, Apply, KeyNames, CanApply, DroppingKey, AddingKey, DropsKey, AddsKey;
    if plan == [] {
      NothingPlanned();
    } else {
      ApplyStep(engine, db, plan);
      forall k ensures DroppingKey(plan, k) <==> k in DropsKey(plan[0]) || DroppingKey(plan[1..], k)
        ensures AddingKey(plan, k) <==> k in AddsKey(plan[0]) || AddingKey(plan[1..], k) {
        KeysOfRest(plan, k);
      }
      RunForeignKeys(engine, Apply(engine, db, plan[0]), plan[1..]);
    }
  }

  lemma NothingPlanned()
    ensures forall k :: !DroppingKey([], k) && !AddingKey([], k)
  {
  }

  lemma ApplyStep(engine: Engine, db: Schema, plan: seq<Change>)
    requires WellFormed(db) && Run(engine, db, plan).Some? && plan != []
    ensures CanApply(db, plan[0]) && WellFormed(Apply(engine, db, plan[0]))
    ensures Run(engine, db, plan) == Run(engine, Apply(engine, db, plan[0]), plan[1..])
    ensures KeyNames(Apply(engine, db, plan[0])) == KeyNames(db) - DropsKey(plan[0]) + AddsKey(plan[0])
  {
    hide WellFormed, Apply, KeyNames, DropsKey, AddsKey;
    ApplyEffect(engine, db, plan[0]);
    ApplyKeys(engine, db, plan[0]);
  }

  /** The change that makes a foreign key. */
  function Adding(fk: ForeignKey): Change {
    AddForeignKey(fk.name, fk.table, fk.column, fk.refTable, fk.refColumn)
  }

  lemma ApplyRecord(engine: Engine, db: Schema, ch: Change, fk: ForeignKey)
    requires WellFormed(db) && CanApply(db, ch)
    ensures fk in Apply(engine, db, ch).keys <==> (fk in db.keys && (fk.table, fk.name) !in DropsKey(ch)) || ch == Adding(fk)
  {
    hide WellFormed, CanApply, WithColumns, WithCopies, WithoutKey;
    if ch.DropForeignKey? {
      WithoutKeyMember(db.keys, ch.table, ch.name, fk);
    } else if ch.AddForeignKey? {
      assert ch == Adding(fk) <==> fk == ForeignKey(ch.name, ch.table, ch.column, ch.refTable, ch.refColumn);
    } else {
      assert Apply(engine, db, ch).keys == db.keys;
    }
  }

  /** The same, key by key with the columns they have and refer to. */
  lemma {:induction false} RunRecords(engine: Engine, db: Schema, plan: seq<Change>, fk: ForeignKey)
    requires WellFormed(db) && Run(engine, db, plan).Some?
    requires forall k :: !(DroppingKey(plan, k) && AddingKey(plan, k))
    ensures fk in Run(engine, db, plan).value.keys <==>
              (fk in db.keys && !DroppingKey(plan, (fk.table, fk.name))) || Adding(fk) in plan
    decreases |plan|
  {
    hide WellFormed, Apply, KeyNames, CanApply, DroppingKey, AddingKey, DropsKey;
    if plan == [] {
      NothingPlanned();
    } else {
      ApplyStep(engine, db, plan);
      ApplyRecord(engine, db, plan[0], fk);
      forall k ensures DroppingKey(plan, k) <==> k in DropsKey(plan[0]) || DroppingKey(plan[1..], k)
        ensures AddingKey(plan, k) <==> k in AddsKey(plan[0]) || AddingKey(plan[1..], k) {
        KeysOfRest(plan, k);
      }
      assert plan == [plan[0]] + plan[1..];
      RunRecords(engine, Apply(engine, db, plan[0]), plan[1..], fk);
    }
  }

  /** A run that adds a key, and drops none like it, did not find it there. */
  lemma {:induction false} AddedWasAbsent(engine: Engine, db: Schema, plan: seq<Change>, k: (string, string))
    requires WellFormed(db) && Run(engine, db, plan).Some? && AddingKey(plan, k) && !DroppingKey(plan, k)
    ensures k !in KeyNames(db)
    decreases |plan|
  {
    hide WellFormed, Apply, KeyNames, DroppingKey, AddingKey, DropsKey, AddsKey;
    if plan == [] {
      NothingPlanned();
    } else {
      ApplyStep(engine, db, plan);
      KeysOfRest(plan, k);
      if k !in AddsKey(plan[0]) {
        AddedWasAbsent(engine, Apply(engine, db, plan[0]), plan[1..], k);
      }
    }
  }

  lemma ApplyKeeps(engine: Engine, db: Schema, ch: Change, k: ColRef)
    requires WellFormed(db) && CanApply(db, ch) && k in db.columns && k !in Removes(ch) && k !in Writes(ch)
    ensures var r := Apply(engine, db, ch);
            && k in r.columns && r.columns[k].cells == db.columns[k].cells
            && (k !in Retypes(ch) ==> r.columns[k] == db.columns[k])
  {
    ApplyEffect(engine, db, ch);
    match ch
    case CreateTable(t, cs) =>
      WithColumnsKeys(db.columns, t, cs, 0, engine.realise);
    case AddColumns(t, cs) =>
      WithColumnsKeys(db.columns, t, cs, db.tables[t], engine.realise);
    case CopyData(t, cs) =>
      NeedsOfCopy(t, cs, db.columns.Keys);
      WithCopiesEffect(db.columns, t, cs, engine);
    case _ =>
  }

  lemma TailFacts(plan: seq<Change>, k: ColRef)
    requires plan != []
    ensures Removing(plan[1..], k) || k in Removes(plan[0]) ==> Removing(plan, k)
    ensures Writing(plan[1..], k) || k in Writes(plan[0]) ==> Writing(plan, k)
    ensures Retyping(plan[1..], k) || k in Retypes(plan[0]) ==> Retyping(plan, k)
  {
    assert forall i | 0 <= i < |plan[1..]| :: plan[1..][i] == plan[i + 1];
  }

  /** A column no change of the run removes or assigns keeps its cells, and its type if none retypes it. */
  lemma {:induction false} RunKeeps(engine: Engine, db: Schema, plan: seq<Change>, k: ColRef)
    requires WellFormed(db) && Run(engine, db, plan).Some? && k in db.columns
    requires !Removing(plan, k) && !Writing(plan, k)
    ensures var r := Run(engine, db, plan).value;
            && k in r.columns && r.columns[k].cells == db.columns[k].cells
            && (!Retyping(plan, k) ==> r.columns[k] == db.columns[k])
    decreases |plan|
  {
    if plan != [] {
      var rest := plan[1..];
      ApplyEffect(engine, db, plan[0]);
      ApplyKeeps(engine, db, plan[0], k);
      TailFacts(plan, k);
      RunKeeps(engine, Apply(engine, db, plan[0]), rest, k);
    }
  }

  /** The state just before the i-th change of a run, and just after it. */
  lemma RunSplit(engine: Engine, db: Schema, plan: seq<Change>, i: nat)
    requires WellFormed(db) && Run(engine, db, plan).Some? && i < |plan|
    ensures Run(engine, db, plan[..i]).Some?
    ensures var mid := Run(engine, db, plan[..i]).value;
            && WellFormed(mid) && CanApply(mid, plan[i])
            && WellFormed(Apply(engine, mid, plan[i]))
            && Run(engine, Apply(engine, mid, plan[i]), plan[i + 1..]) == Run(engine, db, plan)
  {
    assert plan == plan[..i] + plan[i..];
    RunConcat(engine, db, plan[..i], plan[i..]);
    var mid := Run(engine, db, plan[..i]).value;
    assert plan[i..][1..] == plan[i + 1..];
    ApplyEffect(engine, mid, plan[i]);
  }

  /** A column renamed by exactly one change of a run is found, whole, under its new name. */
  lemma RunRenames(engine: Engine, db: Schema, plan: seq<Change>, i: nat)
    requires WellFormed(db) && Run(engine, db, plan).Some? && i < |plan| && plan[i].RenameColumn?
    requires forall j | 0 <= j < |plan| :: plan[j].RenameColumn?
    requires Independent(plan) && AllApply(db, plan)
    ensures var r, o, n := Run(engine, db, plan).value, ColRef(plan[i].table, plan[i].column), ColRef(plan[i].table, plan[i].newName);
            o in db.columns && n in r.columns && r.columns[n] == db.columns[o]
  {
    var o, n := ColRef(plan[i].table, plan[i].column), ColRef(plan[i].table, plan[i].newName);
    assert CanApply(db, plan[i]);
    assert o in Needs(plan[i]) && n in Creates(plan[i]);
    RunSplit(engine, db, plan, i);
    var before, after := plan[..i], plan[i + 1..];
    forall j | 0 <= j < |before| ensures o !in Removes(before[j]) {
      assert Compatible(plan[j], plan[i]);
    }
    RunKeeps(engine, db, before, o);
    var next := Apply(engine, Run(engine, db, before).value, plan[i]);
    forall j | 0 <= j < |after| ensures n !in Removes(after[j]) {
      assert CanApply(db, plan[i + 1 + j]);
      assert Removes(plan[i + 1 + j]) <= Needs(plan[i + 1 + j]);
    }
    RunKeeps(engine, next, after, n);
  }

  lemma ApplyKeepsInfo(engine: Engine, db: Schema, ch: Change, k: ColRef)
    requires WellFormed(db) && CanApply(db, ch) && k in db.columns && k !in Removes(ch) && k !in Retypes(ch)
    ensures k in Apply(engine, db, ch).columns && Apply(engine, db, ch).columns[k].info == db.columns[k].info
  {
    ApplyEffect(engine, db, ch);
    if k !in Writes(ch) {
      ApplyKeeps(engine, db, ch, k);
    } else if ch.CopyData? {
      NeedsOfCopy(ch.table, ch.copies, db.columns.Keys);
      WithCopiesEffect(db.columns, ch.table, ch.copies, engine);
    }
  }

  /** A column no change of the run removes or retypes keeps its type, whatever is assigned to it. */
  lemma {:induction false} RunKeepsInfo(engine: Engine, db: Schema, plan: seq<Change>, k: ColRef)
    requires WellFormed(db) && Run(engine, db, plan).Some? && k in db.columns
    requires !Removing(plan, k) && !Retyping(plan, k)
    ensures var r := Run(engine, db, plan).value; k in r.columns && r.columns[k].info == db.columns[k].info
    decreases |plan|
  {
    if plan != [] {
      ApplyEffect(engine, db, plan[0]);
      ApplyKeepsInfo(engine, db, plan[0], k);
      TailFacts(plan, k);
      RunKeepsInfo(engine, Apply(engine, db, plan[0]), plan[1..], k);
    }
  }

  lemma SplitMoves(plan: seq<Change>, j: nat, k: ColRef)
    requires j < |plan|
    ensures Removing(plan[..j], k) || Removing(plan[j + 1..], k) ==> Removing(plan, k)
    ensures Writing(plan[..j], k) || Writing(plan[j + 1..], k) ==> Writing(plan, k)
    ensures Retyping(plan[..j], k) || Retyping(plan[j + 1..], k) ==> Retyping(plan, k)
  {
    assert forall l | 0 <= l < j :: plan[..j][l] == plan[l];
    var after := plan[j + 1..];
    assert forall l | 0 <= l < |after| :: after[l] == plan[j + 1 + l];
  }

  /** A column made by a change of the run has the type it was made with. */
  lemma RunMakes(engine: Engine, db: Schema, plan: seq<Change>, ch: Change, i: nat)
    requires WellFormed(db) && Run(engine, db, plan).Some? && ch in plan && (ch.CreateTable? || ch.AddColumns?) && i < |ch.newColumns|
    requires var k := ColRef(ch.table, ch.newColumns[i].name); !Removing(plan, k) && !Retyping(plan, k)
    ensures var r, k := Run(engine, db, plan).value, ColRef(ch.table, ch.newColumns[i].name);
            k in r.columns && r.columns[k].info == engine.realise(ch.newColumns[i].columnType)
  {
    hide Run;
    var k := ColRef(ch.table, ch.newColumns[i].name);
    var j :| 0 <= j < |plan| && plan[j] == ch;
    RunSplit(engine, db, plan, j);
    SplitMoves(plan, j, k);
    var mid := Run(engine, db, plan[..j]).value;
    WithColumnsInfo(mid.columns, ch.table, ch.newColumns, if ch.CreateTable? then 0 else mid.tables[ch.table], engine.realise, i);
    RunKeepsInfo(engine, Apply(engine, mid, ch), plan[j + 1..], k);
  }

  lemma {:induction false} LastIndex(s: seq<Change>, x: Change) returns (j: nat)
    requires x in s
    ensures j < |s| && s[j] == x && forall l | j < l < |s| :: s[l] != x
  {
    if s[|s| - 1] == x {
      j := |s| - 1;
    } else {
      assert s == s[..|s| - 1] + [s[|s| - 1]];
      j := LastIndex(s[..|s| - 1], x);
    }
  }

  /** A column changed in place by the run has the new type. */
  lemma RunRetypes(engine: Engine, db: Schema, plan: seq<Change>, ch: Change)
    requires WellFormed(db) && Run(engine, db, plan).Some? && ch in plan && ch.ModifyDataType?
    requires !Removing(plan, ColRef(ch.table, ch.column))
    requires forall x | x in plan && ColRef(ch.table, ch.column) in Retypes(x) :: x == ch
    ensures var r, k := Run(engine, db, plan).value, ColRef(ch.table, ch.column);
            k in r.columns && r.columns[k].info == engine.realise(ch.newType)
  {
    hide Run;
    var k := ColRef(ch.table, ch.column);
    var j := LastIndex(plan, ch);
    RunSplit(engine, db, plan, j);
    SplitMoves(plan, j, k);
    var after := plan[j + 1..];
    forall l | 0 <= l < |after| ensures k !in Retypes(after[l]) {
      assert after[l] == plan[j + 1 + l] && plan[j + 1 + l] in plan;
    }
    RunKeepsInfo(engine, Apply(engine, Run(engine, db, plan[..j]).value, ch), after, k);
  }
}
