/** The levels of subclasses below a class: every strict descendant once, at its depth, and
    no level is skipped. */
module InheritanceLevels {
  import opened Wrappers
  import opened DeployPlan
  import Listing

  /** How many steps up from class n lead to parent, less one; None if none do. */
  function StepsBelow(ctx: Deployment, n: string, parent: string): Option<nat>
    decreases if n in ctx.classes then ctx.depth[n] + 1 else 0
  {
    if n !in ctx.classes || ctx.classes[n].ancestor !in ctx.classes then None
    else
      var up := ctx.classes[n].ancestor;
      assert Grounded(ctx, n);
      if up == parent then Some(0)
      else
        match StepsBelow(ctx, up, parent)
        case None => None
        case Some(k) => Some(k + 1)
  }

  lemma {:induction false} ChildrenExact(ctx: Deployment, parent: string, names: seq<string>)
    requires Listing.Distinct(names)
    ensures var r := ChildrenAmong(ctx, parent, names);
            Listing.Distinct(r) && forall n :: n in r <==> n in names && IsChild(ctx, parent, n)
  {
    if names != [] {
      var front, last := names[..|names| - 1], names[|names| - 1];
      ChildrenExact(ctx, parent, front);
      assert names == front + [last] && last !in front;
    }
  }

  lemma AllChildren(ctx: Deployment, parent: string)
    ensures var r := ChildrenAmong(ctx, parent, ctx.order);
            Listing.Distinct(r) && forall n :: n in r <==> IsChild(ctx, parent, n)
  {
    ChildrenExact(ctx, parent, ctx.order);
  }

  /** One more step: the steps below a grandparent are one more than those below the parent. */
  lemma {:induction false} StepsThrough(ctx: Deployment, n: string, child: string, parent: string)
    requires parent in ctx.classes && IsChild(ctx, parent, child)
    requires StepsBelow(ctx, n, child).Some?
    ensures StepsBelow(ctx, n, parent) == Some(StepsBelow(ctx, n, child).value + 1)
    decreases if n in ctx.classes then ctx.depth[n] + 1 else 0
  {
    assert Grounded(ctx, n) && Grounded(ctx, child);
    StepsAreDeeper(ctx, n, child);
    var up := ctx.classes[n].ancestor;
    if up != child {
      StepsAreDeeper(ctx, up, child);
      StepsThrough(ctx, up, child, parent);
    }
  }

  lemma {:induction false} StepsAreDeeper(ctx: Deployment, n: string, parent: string)
    requires StepsBelow(ctx, n, parent).Some?
    ensures parent in ctx.classes && ctx.depth[n] > ctx.depth[parent]
    decreases if n in ctx.classes then ctx.depth[n] + 1 else 0
  {
    assert Grounded(ctx, n);
    if ctx.classes[n].ancestor != parent {
      StepsAreDeeper(ctx, ctx.classes[n].ancestor, parent);
    }
  }

  /** The child of parent through which a deeper descendant hangs. */
  lemma {:induction false} ChildOnTheWay(ctx: Deployment, n: string, parent: string) returns (child: string)
    requires StepsBelow(ctx, n, parent).Some? && StepsBelow(ctx, n, parent).value > 0
    ensures IsChild(ctx, parent, child) && StepsBelow(ctx, n, child) == Some(StepsBelow(ctx, n, parent).value - 1)
    decreases if n in ctx.classes then ctx.depth[n] + 1 else 0
  {
    assert Grounded(ctx, n);
    var up := ctx.classes[n].ancestor;
    if StepsBelow(ctx, up, parent) == Some(0) {
      child := up;
    } else {
      child := ChildOnTheWay(ctx, up, parent);
      StepsAreDeeper(ctx, up, child);
    }
  }

  /** Two children of one class share no descendant. */
  lemma {:induction false} OneWayUp(ctx: Deployment, n: string, a: string, b: string, parent: string)
    requires IsChild(ctx, parent, a) && IsChild(ctx, parent, b) && a != b
    ensures StepsBelow(ctx, n, a).None? || StepsBelow(ctx, n, b).None?
    ensures StepsBelow(ctx, a, b).None?
    decreases if n in ctx.classes then ctx.depth[n] + 1 else 0
  {
    assert Grounded(ctx, a) && Grounded(ctx, b);
    if StepsBelow(ctx, a, b).Some? {
      if parent == b {
      } else {
        StepsAreDeeper(ctx, parent, b);
      }
    }
    if StepsBelow(ctx, b, a).Some? {
      if parent == a {
      } else {
        StepsAreDeeper(ctx, parent, a);
      }
    }
    if StepsBelow(ctx, n, a).Some? && StepsBelow(ctx, n, b).Some? {
      assert Grounded(ctx, n);
      OneWayUp(ctx, ctx.classes[n].ancestor, a, b, parent);
    }
  }

  /** Level l below parent holds exactly the classes l + 1 steps below it, each once. */
  lemma {:induction false} LevelExact(ctx: Deployment, parent: string, l: nat)
    requires parent in ctx.classes
    ensures Listing.Distinct(Level(ctx, parent, l))
    ensures forall n :: n in Level(ctx, parent, l) <==> StepsBelow(ctx, n, parent) == Some(l)
    decreases l, 0, 0
  {
    var children := ChildrenAmong(ctx, parent, ctx.order);
    AllChildren(ctx, parent);
    if l == 0 {
      forall n ensures n in children <==> StepsBelow(ctx, n, parent) == Some(0) {
      }
    } else {
      LevelOverExact(ctx, parent, children, l - 1);
      forall n ensures n in Level(ctx, parent, l) <==> StepsBelow(ctx, n, parent) == Some(l) {
        if n in Level(ctx, parent, l) {
          var c :| c in children && StepsBelow(ctx, n, c) == Some(l - 1);
          StepsThrough(ctx, n, c, parent);
        }
        if StepsBelow(ctx, n, parent) == Some(l) {
          var c := ChildOnTheWay(ctx, n, parent);
          assert c in children;
        }
      }
    }
  }

  lemma {:induction false} LevelOverExact(ctx: Deployment, parent: string, names: seq<string>, l: nat)
    requires parent in ctx.classes && Listing.Distinct(names) && forall n | n in names :: IsChild(ctx, parent, n)
    ensures Listing.Distinct(LevelOver(ctx, names, l))
    ensures forall n :: n in LevelOver(ctx, names, l) <==> exists c :: c in names && StepsBelow(ctx, n, c) == Some(l)
    decreases l, 1, |names|
  {
    hide StepsBelow, Level;
    if names != [] {
      var front, last := names[..|names| - 1], names[|names| - 1];
      assert names == front + [last] && last !in front && last in names;
      LevelOverExact(ctx, parent, front, l);
      LevelExact(ctx, last, l);
      LevelsApart(ctx, parent, front, last, l);
      hide IsChild;
      var a, b := LevelOver(ctx, front, l), Level(ctx, last, l);
      forall n ensures n in a + b <==> exists c :: c in names && StepsBelow(ctx, n, c) == Some(l) {
        assert n in a + b <==> n in a || n in b;
        assert forall c :: c in names <==> c in front || c == last;
      }
    }
  }

  /** What is l steps below one child is not l steps below another. */
  lemma LevelsApart(ctx: Deployment, parent: string, front: seq<string>, last: string, l: nat)
    requires parent in ctx.classes && (forall n | n in front + [last] :: IsChild(ctx, parent, n)) && last !in front
    requires Listing.Distinct(LevelOver(ctx, front, l)) && Listing.Distinct(Level(ctx, last, l))
    requires forall n | n in LevelOver(ctx, front, l) :: exists c :: c in front && StepsBelow(ctx, n, c) == Some(l)
    requires forall n | n in Level(ctx, last, l) :: StepsBelow(ctx, n, last) == Some(l)
    ensures Listing.Distinct(LevelOver(ctx, front, l) + Level(ctx, last, l))
  {
    hide StepsBelow, Level, LevelOver, IsChild;
    var a, b := LevelOver(ctx, front, l), Level(ctx, last, l);
    forall i, j | 0 <= i < |a| && 0 <= j < |b| ensures a[i] != b[j] {
      assert a[i] in a && b[j] in b;
      var c :| c in front && StepsBelow(ctx, a[i], c) == Some(l);
      assert c in front + [last] && last in front + [last];
      OneWayUp(ctx, a[i], c, last, parent);
    }
    Listing.DistinctConcat(a, b);
  }

  /** The levels below a class are exactly the first Height ones: none is empty before the last. */
  lemma {:induction false} LevelsContiguous(ctx: Deployment, parent: string, l: nat)
    requires parent in ctx.classes
    ensures Level(ctx, parent, l) != [] <==> l < Height(ctx, parent)
    decreases l, 0, 0
  {
    var children := ChildrenAmong(ctx, parent, ctx.order);
    ChildrenAreDeeper(ctx, parent, ctx.order);
    if l == 0 {
      if children != [] {
        assert HeightOver(ctx, parent, children) >= 1;
      }
    } else {
      LevelsOverContiguous(ctx, parent, children, l - 1);
    }
  }

  lemma {:induction false} LevelsOverContiguous(ctx: Deployment, parent: string, names: seq<string>, l: nat)
    requires parent in ctx.classes
    requires forall n | n in names :: n in ctx.classes && Deeper(ctx, n) < Deeper(ctx, parent)
    ensures LevelOver(ctx, names, l) != [] <==> l + 1 < HeightOver(ctx, parent, names)
    decreases l, 1, |names|
  {
    if names != [] {
      LevelsOverContiguous(ctx, parent, names[..|names| - 1], l);
      LevelsContiguous(ctx, names[|names| - 1], l);
    }
  }
}
