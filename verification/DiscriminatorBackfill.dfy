/** The backfill of a new discriminator is exact: each row without one gets the name of its
    most derived class, and no other row changes. */
module DiscriminatorBackfill {
  import opened Wrappers
  import opened PropertyTypes
  import opened Database
  import opened DeployPlan
  import opened InheritanceLevels

  type Columns = map<ColRef, Column>

  /** A row of the root table, known by its key, is also a row of class n. */
  ghost predicate Holds(ctx: Deployment, keys: Columns, keyName: string, root: string, key: Cell, n: string) {
    n == root || (StepsBelow(ctx, n, root).Some? && InTable(ctx, keys, keyName, key, n))
  }

  ghost predicate InTable(ctx: Deployment, keys: Columns, keyName: string, key: Cell, n: string) {
    var k := ColRef(ctx.settings.naming.table(n), keyName);
    k in keys && InChild(key, keys[k])
  }

  ghost predicate MostDerived(ctx: Deployment, keys: Columns, keyName: string, root: string, key: Cell, n: string) {
    Holds(ctx, keys, keyName, root, key, n) && forall m | IsChild(ctx, n, m) :: !Holds(ctx, keys, keyName, root, key, m)
  }

  /** The keys of a class table are contained in the table of its ancestor. */
  ghost predicate Nested(ctx: Deployment, keys: Columns, keyName: string, root: string, key: Cell) {
    forall n, m {:trigger IsChild(ctx, n, m)} | IsChild(ctx, n, m) && Holds(ctx, keys, keyName, root, key, m) && m != root :: Holds(ctx, keys, keyName, root, key, n)
  }

  /** No row belongs to two subclasses of one class. */
  ghost predicate SiblingsApart(ctx: Deployment, keys: Columns, keyName: string, root: string, key: Cell) {
    forall p, a, b {:trigger IsChild(ctx, p, a), IsChild(ctx, p, b)} | IsChild(ctx, p, a) && IsChild(ctx, p, b) && a != b && a != root && b != root ::
      !(Holds(ctx, keys, keyName, root, key, a) && Holds(ctx, keys, keyName, root, key, b))
  }

  /** The script finds the key columns it asks for. */
  ghost predicate Answered(us: seq<Update>, keys: Columns, keyName: string) {
    forall i | 0 <= i < |us| && us[i].child.Some? :: ColRef(us[i].child.value, keyName) in keys
  }

  lemma {:induction false} NonNullStays(cell: Cell, key: Cell, us: seq<Update>, keys: Columns, keyName: string)
    requires Answered(us, keys, keyName) && cell != Null
    ensures UpdateRow(cell, key, us, keys, keyName) == cell
    decreases |us|
  {
    if us != [] {
      NonNullStays(cell, key, us[1..], keys, keyName);
    }
  }

  lemma {:induction false} UpdateConcat(cell: Cell, key: Cell, a: seq<Update>, b: seq<Update>, keys: Columns, keyName: string)
    requires Answered(a, keys, keyName) && Answered(b, keys, keyName)
    ensures Answered(a + b, keys, keyName)
    ensures UpdateRow(cell, key, a + b, keys, keyName) == UpdateRow(UpdateRow(cell, key, a, keys, keyName), key, b, keys, keyName)
    decreases |a|
  {
    if a == [] {
      assert a + b == b;
    } else {
      assert (a + b)[1..] == a[1..] + b;
      UpdateConcat(UpdateCell(cell, key, a[0], keys, keyName), key, a[1..], b, keys, keyName);
    }
  }

  lemma AnsweredSplit(a: seq<Update>, b: seq<Update>, keys: Columns, keyName: string)
    requires Answered(a + b, keys, keyName)
    ensures Answered(a, keys, keyName) && Answered(b, keys, keyName)
  {
    forall i | 0 <= i < |a| && a[i].child.Some? ensures ColRef(a[i].child.value, keyName) in keys {
      assert (a + b)[i] == a[i];
    }
    forall i | 0 <= i < |b| && b[i].child.Some? ensures ColRef(b[i].child.value, keyName) in keys {
      assert (a + b)[|a| + i] == b[i];
    }
  }

  /** One level: a null row gets the name of a class of the level that has it, or stays null if none does. */
  lemma {:induction false} LevelUpdates(ctx: Deployment, key: Cell, names: seq<string>, keys: Columns, keyName: string)
    requires Answered(UpdatesOf(ctx, names), keys, keyName)
    ensures var r := UpdateRow(Null, key, UpdatesOf(ctx, names), keys, keyName);
            if r == Null then forall n | n in names :: !InTable(ctx, keys, keyName, key, n)
            else r.text in names && InTable(ctx, keys, keyName, key, r.text)
  {
    if names != [] {
      var front, last := names[..|names| - 1], names[|names| - 1];
      var a, u := UpdatesOf(ctx, front), Update(last, Some(ctx.settings.naming.table(last)));
      assert UpdatesOf(ctx, names) == a + [u];
      AnsweredSplit(a, [u], keys, keyName);
      LevelUpdates(ctx, key, front, keys, keyName);
      UpdateConcat(Null, key, a, [u], keys, keyName);
      var r := UpdateRow(Null, key, a, keys, keyName);
      assert [u][0].child.Some?;
      assert UpdateRow(r, key, [u], keys, keyName) == UpdateCell(r, key, u, keys, keyName) by {
        assert [u][1..] == [];
      }
      forall n | n in names ensures n in front || n == last {
        assert names == front + [last];
      }
    }
  }

  /** Levels l - 1, ..., 0: the row gets the name of a deepest class that has it. */
  lemma {:induction false} LevelsUpdates(ctx: Deployment, key: Cell, root: string, l: nat, keys: Columns, keyName: string)
    requires root in ctx.classes && Answered(ScriptFrom(ctx, root, l), keys, keyName)
    ensures var r := UpdateRow(Null, key, ScriptFrom(ctx, root, l), keys, keyName);
            if r == Null then forall n | StepsBelow(ctx, n, root).Some? && StepsBelow(ctx, n, root).value < l :: !InTable(ctx, keys, keyName, key, n)
            else
              && StepsBelow(ctx, r.text, root).Some? && StepsBelow(ctx, r.text, root).value < l && InTable(ctx, keys, keyName, key, r.text)
              && forall n | StepsBelow(ctx, n, root).Some? && StepsBelow(ctx, r.text, root).value < StepsBelow(ctx, n, root).value < l ::
                   !InTable(ctx, keys, keyName, key, n)
  {
    hide InTable, Level, UpdatesOf;
    if l > 0 {
      var names := Level(ctx, root, l - 1);
      var a, b := UpdatesOf(ctx, names), ScriptFrom(ctx, root, l - 1);
      AnsweredSplit(a, b, keys, keyName);
      UpdateConcat(Null, key, a, b, keys, keyName);
      LevelUpdates(ctx, key, names, keys, keyName);
      LevelExact(ctx, root, l - 1);
      var r := UpdateRow(Null, key, a, keys, keyName);
      if r == Null {
        LevelsUpdates(ctx, key, root, l - 1, keys, keyName);
      } else {
        NonNullStays(r, key, b, keys, keyName);
      }
    }
  }

  /** A class further down than the last level is none. */
  lemma NoDeeper(ctx: Deployment, root: string, n: string)
    requires root in ctx.classes && StepsBelow(ctx, n, root).Some?
    ensures StepsBelow(ctx, n, root).value < Height(ctx, root)
  {
    hide Level, Height;
    var l := StepsBelow(ctx, n, root).value;
    LevelExact(ctx, root, l);
    LevelsContiguous(ctx, root, l);
  }

  /** Who holds a row holds it up to the root. */
  lemma {:induction false} HeldUpwards(ctx: Deployment, keys: Columns, keyName: string, root: string, key: Cell, n: string, p: string)
    requires root in ctx.classes && Nested(ctx, keys, keyName, root, key) && Holds(ctx, keys, keyName, root, key, n)
    requires StepsBelow(ctx, n, p).Some? && StepsBelow(ctx, p, root).Some?
    ensures Holds(ctx, keys, keyName, root, key, p)
    decreases if n in ctx.classes then ctx.depth[n] + 1 else 0
  {
    hide InTable;
    assert Grounded(ctx, n);
    StepsAreDeeper(ctx, n, p);
    StepsAreDeeper(ctx, p, root);
    var up := ctx.classes[n].ancestor;
    assert IsChild(ctx, up, n);
    if up != p {
      HeldUpwards(ctx, keys, keyName, root, key, up, p);
    }
  }

  /** Of two classes that hold a row one is below the other. */
  lemma {:induction false} HoldersFormAChain(ctx: Deployment, keys: Columns, keyName: string, root: string, key: Cell, p: string, a: string, b: string)
    requires root in ctx.classes && Nested(ctx, keys, keyName, root, key) && SiblingsApart(ctx, keys, keyName, root, key)
    requires Holds(ctx, keys, keyName, root, key, a) && Holds(ctx, keys, keyName, root, key, b)
    requires p == root || StepsBelow(ctx, p, root).Some?
    requires StepsBelow(ctx, a, p).Some? && StepsBelow(ctx, b, p).Some?
    ensures a == b || StepsBelow(ctx, a, b).Some? || StepsBelow(ctx, b, a).Some?
    decreases StepsBelow(ctx, a, p).value
  {
    hide InTable, Nested, SiblingsApart;
    var x := BranchOf(ctx, a, p);
    var y := BranchOf(ctx, b, p);
    BranchHolds(ctx, keys, keyName, root, key, p, a, x);
    BranchHolds(ctx, keys, keyName, root, key, p, b, y);
    OneBranch(ctx, keys, keyName, root, key, p, x, y);
    if a != x && b != x {
      HoldersFormAChain(ctx, keys, keyName, root, key, x, a, b);
    }
  }

  lemma OneBranch(ctx: Deployment, keys: Columns, keyName: string, root: string, key: Cell, p: string, x: string, y: string)
    requires SiblingsApart(ctx, keys, keyName, root, key) && IsChild(ctx, p, x) && IsChild(ctx, p, y)
    requires Holds(ctx, keys, keyName, root, key, x) && Holds(ctx, keys, keyName, root, key, y) && x != root && y != root
    ensures x == y
  {
    hide Holds;
  }

  /** The child of p that is n or has n below it. */
  lemma BranchOf(ctx: Deployment, n: string, p: string) returns (child: string)
    requires StepsBelow(ctx, n, p).Some?
    ensures IsChild(ctx, p, child) && (n == child || (StepsBelow(ctx, n, child).Some? && StepsBelow(ctx, n, child).value < StepsBelow(ctx, n, p).value))
    ensures StepsBelow(ctx, child, p).Some?
  {
    StepsAreDeeper(ctx, n, p);
    if StepsBelow(ctx, n, p).value == 0 {
      child := n;
      assert Grounded(ctx, n);
    } else {
      child := ChildOnTheWay(ctx, n, p);
    }
  }

  lemma BranchHolds(ctx: Deployment, keys: Columns, keyName: string, root: string, key: Cell, p: string, n: string, child: string)
    requires root in ctx.classes && Nested(ctx, keys, keyName, root, key) && Holds(ctx, keys, keyName, root, key, n)
    requires p == root || StepsBelow(ctx, p, root).Some?
    requires IsChild(ctx, p, child) && (n == child || StepsBelow(ctx, n, child).Some?) && StepsBelow(ctx, child, p).Some?
    ensures Holds(ctx, keys, keyName, root, key, child) && child != root && StepsBelow(ctx, child, root).Some?
  {
    hide InTable;
    assert Grounded(ctx, child);
    StepsAreDeeper(ctx, child, p);
    if p != root {
      StepsAreDeeper(ctx, p, root);
    }
    assert StepsBelow(ctx, child, root).Some?;
    if n != child {
      HeldUpwards(ctx, keys, keyName, root, key, n, child);
    }
  }

  /** A row has one most derived class. */
  lemma OneMostDerived(ctx: Deployment, keys: Columns, keyName: string, root: string, key: Cell, a: string, b: string)
    requires root in ctx.classes && Nested(ctx, keys, keyName, root, key) && SiblingsApart(ctx, keys, keyName, root, key)
    requires MostDerived(ctx, keys, keyName, root, key, a) && MostDerived(ctx, keys, keyName, root, key, b)
    ensures a == b
  {
    hide InTable, Nested, SiblingsApart;
    if a != b {
      if a != root && b != root {
        HoldersFormAChain(ctx, keys, keyName, root, key, root, a, b);
      }
      if a == root || StepsBelow(ctx, b, a).Some? {
        NotBelow(ctx, keys, keyName, root, key, a, b);
      } else {
        NotBelow(ctx, keys, keyName, root, key, b, a);
      }
    }
  }

  /** Nothing that holds the row is below its most derived class. */
  lemma NotBelow(ctx: Deployment, keys: Columns, keyName: string, root: string, key: Cell, a: string, b: string)
    requires root in ctx.classes && Nested(ctx, keys, keyName, root, key)
    requires MostDerived(ctx, keys, keyName, root, key, a) && Holds(ctx, keys, keyName, root, key, b)
    ensures StepsBelow(ctx, b, a).None?
  {
    hide InTable, Nested;
    if StepsBelow(ctx, b, a).Some? {
      var x := BranchOf(ctx, b, a);
      BranchHolds(ctx, keys, keyName, root, key, a, b, x);
    }
  }

  /** The script gives a row without a discriminator the name of its one most derived class. */
  lemma ScriptIsExact(ctx: Deployment, keys: Columns, keyName: string, root: string, key: Cell) returns (n: string)
    requires root in ctx.classes && Answered(Script(ctx, root), keys, keyName)
    requires Nested(ctx, keys, keyName, root, key) && SiblingsApart(ctx, keys, keyName, root, key)
    ensures UpdateRow(Null, key, Script(ctx, root), keys, keyName) == Value(n)
    ensures MostDerived(ctx, keys, keyName, root, key, n)
    ensures forall m | MostDerived(ctx, keys, keyName, root, key, m) :: m == n
  {
    hide InTable, Nested, SiblingsApart, Height, ScriptFrom;
    var h := Height(ctx, root);
    var a, last := ScriptFrom(ctx, root, h), Update(root, None);
    AnsweredSplit(a, [last], keys, keyName);
    UpdateConcat(Null, key, a, [last], keys, keyName);
    LevelsUpdates(ctx, key, root, h, keys, keyName);
    var r := UpdateRow(Null, key, a, keys, keyName);
    assert UpdateRow(r, key, [last], keys, keyName) == UpdateCell(r, key, last, keys, keyName) by {
      assert [last][1..] == [];
    }
    n := if r == Null then root else r.text;
    if r != Null {
      StepsAreDeeper(ctx, n, root);
    }
    forall m | IsChild(ctx, n, m) ensures !Holds(ctx, keys, keyName, root, key, m) {
      ChildIsBelow(ctx, root, n, m);
      NoDeeper(ctx, root, m);
    }
    forall m | MostDerived(ctx, keys, keyName, root, key, m) ensures m == n {
      OneMostDerived(ctx, keys, keyName, root, key, m, n);
    }
  }

  lemma ChildIsBelow(ctx: Deployment, root: string, n: string, m: string)
    requires root in ctx.classes && (n == root || StepsBelow(ctx, n, root).Some?) && IsChild(ctx, n, m)
    ensures StepsBelow(ctx, m, root).Some? && m != root
    ensures n == root || StepsBelow(ctx, m, root).value == StepsBelow(ctx, n, root).value + 1
  {
    assert Grounded(ctx, m);
    if n != root {
      StepsAreDeeper(ctx, n, root);
    }
  }

  /** The change as it is applied: rows that have a discriminator keep it, the others get the
      name of their most derived class. */
  lemma BackfillIsExact(ctx: Deployment, engine: Engine, db: Schema, c: ClassDef, pm: PropertyMeta, i: nat)
    requires c.name in ctx.classes && ctx.classes[c.name] == c
    requires WellFormed(db) && CanApply(db, BackfillOf(ctx, c, pm))
    requires var k, keyName := ColRef(Table(ctx, c), ColumnName(ctx, pm)), ctx.settings.naming.column(c.key);
             k in db.columns && i < |db.columns[k].cells| && ColRef(Table(ctx, c), keyName) in db.columns
    requires var keyName := ctx.settings.naming.column(c.key);
             var key := db.columns[ColRef(Table(ctx, c), keyName)].cells[i];
             Nested(ctx, db.columns, keyName, c.name, key) && SiblingsApart(ctx, db.columns, keyName, c.name, key)
    ensures var k, keyName := ColRef(Table(ctx, c), ColumnName(ctx, pm)), ctx.settings.naming.column(c.key);
            var key := db.columns[ColRef(Table(ctx, c), keyName)].cells[i];
            var was, now := db.columns[k].cells[i], Apply(engine, db, BackfillOf(ctx, c, pm)).columns[k].cells[i];
            if was == Null then now.Value? && MostDerived(ctx, db.columns, keyName, c.name, key, now.text) else now == was
  {
    hide Nested, SiblingsApart, Script, MostDerived;
    var t, name, keyName, us := Table(ctx, c), ColumnName(ctx, pm), ctx.settings.naming.column(c.key), Script(ctx, c.name);
    NeedsOfBackfill(t, name, keyName, us, db.columns.Keys);
    var key := db.columns[ColRef(t, keyName)].cells[i];
    if db.columns[ColRef(t, name)].cells[i] == Null {
      var n := ScriptIsExact(ctx, db.columns, keyName, c.name, key);
    } else {
      NonNullStays(db.columns[ColRef(t, name)].cells[i], key, us, db.columns, keyName);
    }
  }
}
