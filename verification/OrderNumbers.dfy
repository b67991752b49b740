/** Dragging a column to a new place: its order number is set, and the numbers it collides
    with are pushed up one by one. */
module OrderNumbers {
  import opened Wrappers
  import Text

  class StoredColumn {
    const caption: string
    const property: string
    var orderNumber: int

    constructor (caption: string, property: string, orderNumber: int)
      ensures this.caption == caption && this.property == property && this.orderNumber == orderNumber
    {
      this.caption := caption;
      this.property := property;
      this.orderNumber := orderNumber;
    }
  }

  // Order numbers are boxed integers, and boxes of equal value are one object only in this range.
  const CACHE_FROM := -128
  const CACHE_TO := 127

  predicate Cached(n: int) {
    CACHE_FROM <= n <= CACHE_TO
  }

  /** The comparison of two boxes, which are never shared outside the cache. */
  predicate SameBox(a: int, b: int) {
    a == b && Cached(a)
  }

  predicate SameColumn(x: StoredColumn, y: StoredColumn) {
    x.caption == y.caption && x.property == y.property
  }

  type Numbers = map<StoredColumn, int>

  ghost function NumbersOf(list: seq<StoredColumn>): Numbers
    reads list
  {
    map x | x in list :: x.orderNumber
  }

  /** The columns numbered n or more; the recursion works its way up through them. */
  ghost function AtLeast(m: Numbers, n: int): set<StoredColumn> {
    set x | x in m && m[x] >= n
  }

  ghost predicate Columns(list: seq<StoredColumn>) {
    forall i, j | 0 <= i < j < |list| :: !SameColumn(list[i], list[j])
  }

  ghost predicate OthersDistinct(m: Numbers, u: StoredColumn) {
    forall x, y | x in m && y in m && x != u && y != u && x != y :: m[x] != m[y]
  }

  /** The numbers the other columns have. */
  ghost function Others(m: Numbers, u: StoredColumn): set<int> {
    set x | x in m && x != u :: m[x]
  }

  /** The number that the pushing stops at: the first that is free, or past the cache. */
  ghost function Stop(taken: set<int>, n: int): int
    decreases CACHE_TO + 1 - n
  {
    if n in taken && Cached(n) then Stop(taken, n + 1) else n
  }

  /** The numbers after the repair: those from u's number up to the stop are raised by one. */
  ghost function Repaired(m: Numbers, u: StoredColumn): Numbers
    requires u in m
  {
    map x | x in m :: if x != u && m[u] <= m[x] < Stop(Others(m, u), m[u]) then m[x] + 1 else m[x]
  }

  /** Pushing one column on and repairing from there is the repair. */
  lemma PushOn(m: Numbers, u: StoredColumn, s: StoredColumn)
    requires u in m && s in m && s != u && m[s] == m[u] && Cached(m[u]) && OthersDistinct(m, u)
    ensures OthersDistinct(m[s := m[u] + 1], s)
    ensures Repaired(m[s := m[u] + 1], s) == Repaired(m, u)
  {
    var n := m[u];
    var next := m[s := n + 1];
    var a, b := Others(next, s), Others(m, u);
    forall k ensures k in a <==> k in b {
      if k in a {
        var x: StoredColumn :| x in next && x != s && next[x] == k;
        assert x == u ==> m[s] == k;
      }
      if k in b {
        var x: StoredColumn :| x in m && x != u && m[x] == k;
        if x == s {
          assert next[u] == k;
        } else {
          assert next[x] == k;
        }
      }
    }
    assert a == b && m[s] in b;
    assert Stop(b, n) == Stop(b, n + 1);
    StopIsAbove(b, n + 1);
  }

  lemma {:induction false} StopIsAbove(taken: set<int>, n: int)
    ensures Stop(taken, n) >= n
    ensures forall k | n <= k < Stop(taken, n) :: k in taken && Cached(k)
    ensures Stop(taken, n) !in taken || !Cached(Stop(taken, n))
    decreases CACHE_TO + 1 - n
  {
    if n in taken && Cached(n) {
      StopIsAbove(taken, n + 1);
    }
  }

  /** With no column to push, the repair changes nothing. */
  lemma NothingToPush(m: Numbers, u: StoredColumn)
    requires u in m && forall x | x in m && x != u :: !SameBox(m[x], m[u])
    ensures Repaired(m, u) == m
  {
    assert Stop(Others(m, u), m[u]) == m[u];
  }

  /** What the recursion may touch: numbers from n on only grow, the others stay. */
  ghost predicate OnlyRaises(before: Numbers, after: Numbers, n: int) {
    && before.Keys == after.Keys
    && forall x | x in before :: if before[x] < n then after[x] == before[x] else after[x] >= before[x]
  }

  /** None of these columns has u's number, as far as boxes can tell. */
  ghost predicate NoneSame(seen: seq<StoredColumn>, m: Numbers, u: StoredColumn)
    requires u in m
  {
    forall x | x in seen && x in m && x != u :: !SameBox(m[x], m[u])
  }

  lemma OneMoreApart(list: seq<StoredColumn>, m: Numbers, u: StoredColumn, i: nat)
    requires i < |list| && u in list && Columns(list) && u in m && list[i] in m && NoneSame(list[..i], m, u)
    requires SameColumn(list[i], u) || !SameBox(m[list[i]], m[u])
    ensures NoneSame(list[..i + 1], m, u)
  {
    var k :| 0 <= k < |list| && list[k] == u;
    assert list[..i + 1] == list[..i] + [list[i]];
  }

  lemma PushedIsSmaller(m: Numbers, u: StoredColumn, s: StoredColumn, n: int)
    requires u in m && s in m && u != s && m[u] == n && m[s] == n
    ensures AtLeast(m[s := n + 1], n + 1) < AtLeast(m, n)
  {
    var a, b := AtLeast(m[s := n + 1], n + 1), AtLeast(m, n);
    forall x | x in a ensures x in b {
    }
    assert u in b && u !in a;
  }

  lemma StillRaises(before: Numbers, u: StoredColumn, s: StoredColumn, after: Numbers, n: int)
    requires u in before && s in before && u != s && before[s] == n == before[u] && OnlyRaises(before[s := n + 1], after, n + 1)
    ensures OnlyRaises(before, after, n) && after[u] == n
  {
    forall x | x in before ensures if before[x] < n then after[x] == before[x] else after[x] >= before[x] {
      assert x in before[s := n + 1];
    }
    assert u in before[s := n + 1];
  }

  lemma RaisesOnAndOn(start: Numbers, before: Numbers, after: Numbers, n: int)
    requires OnlyRaises(start, before, n) && OnlyRaises(before, after, n)
    ensures OnlyRaises(start, after, n)
  {
  }

  lemma RaisingKeepsTheHigh(start: Numbers, after: Numbers, n: int)
    requires OnlyRaises(start, after, n)
    ensures AtLeast(after, n) == AtLeast(start, n)
  {
  }

  /** The body of the loop: a column with u's number is raised, and repaired from there. */
  method PushUp(spm: StoredColumn, list: seq<StoredColumn>, ghost u: StoredColumn)
    requires spm in list && u in list && spm != u && SameBox(spm.orderNumber, u.orderNumber)
    modifies list
    ensures OnlyRaises(old(NumbersOf(list)), NumbersOf(list), old(u.orderNumber)) && u.orderNumber == old(u.orderNumber)
    ensures Columns(list) && old(OthersDistinct(NumbersOf(list), u)) ==> NumbersOf(list) == old(Repaired(NumbersOf(list), u))
    decreases AtLeast(NumbersOf(list), u.orderNumber), 0
  {
    hide OnlyRaises, Repaired, AtLeast, OthersDistinct, Columns;
    ghost var before := NumbersOf(list);
    ghost var n := u.orderNumber;
    PushedIsSmaller(before, u, spm, n);
    if Columns(list) && OthersDistinct(before, u) {
      PushOn(before, u, spm);
    }
    spm.orderNumber := spm.orderNumber + 1;
    assert NumbersOf(list) == before[spm := n + 1];
    ExcludeDuplicatedOrderNumbers(spm, list);
    StillRaises(before, u, spm, NumbersOf(list), n);
    assert u.orderNumber == NumbersOf(list)[u];
  }

  /** excludeDuplicatedOrderNumbers. It ends for every list: each call works on fewer columns
      numbered at least as high as its own. */
  method ExcludeDuplicatedOrderNumbers(u: StoredColumn, list: seq<StoredColumn>)
    requires u in list
    modifies list
    ensures OnlyRaises(old(NumbersOf(list)), NumbersOf(list), u.orderNumber) && u.orderNumber == old(u.orderNumber)
    ensures Columns(list) && old(OthersDistinct(NumbersOf(list), u)) ==> NumbersOf(list) == old(Repaired(NumbersOf(list), u))
    decreases AtLeast(NumbersOf(list), u.orderNumber), 1
  {
    ghost var start := NumbersOf(list);
    ghost var n := u.orderNumber;
    ghost var exact := Columns(list) && OthersDistinct(start, u);
    ghost var done := false;
    for i := 0 to |list|
      invariant u.orderNumber == n
      invariant OnlyRaises(start, NumbersOf(list), n)
      invariant !done ==> NumbersOf(list) == start && (exact ==> NoneSame(list[..i], start, u))
      invariant done && exact ==> NumbersOf(list) == Repaired(start, u)
    {
      hide OnlyRaises, Repaired, AtLeast, NoneSame, OthersDistinct, Columns;
      var spm := list[i];
      ghost var before := NumbersOf(list);
      if !SameColumn(spm, u) && SameBox(spm.orderNumber, u.orderNumber) {
        if exact && done {
          RepairedApart(start, u, spm);
        }
        RaisingKeepsTheHigh(start, before, n);
        PushUp(spm, list, u);
        RaisesOnAndOn(start, before, NumbersOf(list), n);
        done := true;
      } else if exact && !done {
        OneMoreApart(list, start, u, i);
      }
    }
    if exact && !done {
      AllApart(list, start, u);
      NothingToPush(start, u);
    }
  }

  lemma AllApart(list: seq<StoredColumn>, m: Numbers, u: StoredColumn)
    requires u in m && NoneSame(list[..|list|], m, u) && forall x | x in m :: x in list
    ensures forall x | x in m && x != u :: !SameBox(m[x], m[u])
  {
    assert list[..|list|] == list;
  }

  /** After the repair no other column has u's number, as far as boxes can tell. */
  lemma RepairedApart(m: Numbers, u: StoredColumn, x: StoredColumn)
    requires u in m && x in m && x != u
    ensures !SameBox(Repaired(m, u)[x], Repaired(m, u)[u])
  {
    StopIsAbove(Others(m, u), m[u]);
    assert m[x] in Others(m, u);
  }

  /** The column dropped on, and where: before it, after it, on it or below all. */
  datatype Location = Before | After | On | Nowhere

  function KeyOf(x: StoredColumn): string {
    x.caption + "|" + x.property
  }

  /** The last column with the key that is dragged. */
  function Dragged(list: seq<StoredColumn>, buffer: string): Option<StoredColumn> {
    if list == [] then None
    else if KeyOf(list[|list| - 1]) == buffer then Some(list[|list| - 1])
    else Dragged(list[..|list| - 1], buffer)
  }

  lemma {:induction false} DraggedIsThere(list: seq<StoredColumn>, buffer: string)
    ensures Dragged(list, buffer).Some? ==> Dragged(list, buffer).value in list
  {
    if list != [] && KeyOf(list[|list| - 1]) != buffer {
      DraggedIsThere(list[..|list| - 1], buffer);
    }
  }

  /** OnDrag: the text of a column; item is None where no column is dragged. */
  method OnDrag(item: Option<StoredColumn>) returns (buffer: string)
    ensures buffer == match item case None => "none" case Some(u) => u.caption + "|" + u.property
  {
    buffer := "none";
    if item.Some? {
      buffer := item.value.caption + "|" + item.value.property;
    }
  }

  /** What is dragged is what is dropped if and only if no column behind it has the same text. */
  lemma {:induction false} DragIsFound(list: seq<StoredColumn>, i: nat, buffer: string)
    requires i < |list| && (forall j, k | 0 <= j < k < |list| :: list[j] != list[k]) && buffer == list[i].caption + "|" + list[i].property
    ensures buffer != "none"
    ensures Dragged(list, buffer) == Some(list[i]) <==> forall j | i < j < |list| :: list[j].caption + "|" + list[j].property != buffer
  {
    assert buffer[|list[i].caption|] == '|';
    var last := |list| - 1;
    if i < last {
      if KeyOf(list[last]) != buffer {
        DragIsFound(list[..last], i, buffer);
      }
    }
  }

  /** A text tells the column where no caption has the separator in it. */
  lemma TextTells(x: StoredColumn, y: StoredColumn)
    requires '|' !in x.caption && '|' !in y.caption && x.caption + "|" + x.property == y.caption + "|" + y.property
    ensures SameColumn(x, y)
  {
    Text.SeparatorPosition(x.caption, '|', x.property);
    Text.SeparatorPosition(y.caption, '|', y.property);
    var s := x.caption + "|" + x.property;
    assert s == x.caption + ['|'] + x.property && s == y.caption + ['|'] + y.property;
    assert x.caption == s[..|x.caption|] && x.property == s[|x.caption| + 1..];
    assert y.caption == s[..|y.caption|] && y.property == s[|y.caption| + 1..];
  }

  /** The columns of a list without such captions are all found again. */
  lemma DragIsFoundAgain(list: seq<StoredColumn>, i: nat)
    requires Columns(list) && i < |list| && forall j | 0 <= j < |list| :: '|' !in list[j].caption
    ensures Dragged(list, list[i].caption + "|" + list[i].property) == Some(list[i])
  {
    var buffer := list[i].caption + "|" + list[i].property;
    forall j | i < j < |list| ensures list[j].caption + "|" + list[j].property != buffer {
      if list[j].caption + "|" + list[j].property == buffer {
        TextTells(list[i], list[j]);
      }
    }
    DragIsFound(list, i, buffer);
  }

  /** Otherwise another column may be moved than the one that is dragged. */
  lemma DragMovesAnother(x: StoredColumn, y: StoredColumn)
    requires x.caption == "a" && x.property == "b|c" && y.caption == "a|b" && y.property == "c"
    ensures Columns([x, y]) && Dragged([x, y], x.caption + "|" + x.property) == Some(y)
  {
    assert x.caption + "|" + x.property == y.caption + "|" + y.property;
  }

  /** OnDrop onto a column of the list. */
  method OnDrop(list: seq<StoredColumn>, target: StoredColumn, buffer: string, location: Location) returns (dragged: Option<StoredColumn>)
    requires target in list
    modifies list
    ensures dragged == if buffer == "none" then None else Dragged(list, buffer)
    ensures dragged.None? ==> NumbersOf(list) == old(NumbersOf(list))
    ensures dragged.Some? ==>
              var at := match location
                        case Before => old(target.orderNumber)
                        case After => old(target.orderNumber) + 1
                        case On => old(target.orderNumber) + 1
                        case Nowhere => old(list[|list| - 1].orderNumber) + 1;
              && dragged.value in list && dragged.value.orderNumber == at
              && (Columns(list) && OthersDistinct(old(NumbersOf(list))[dragged.value := at], dragged.value) ==>
                    NumbersOf(list) == Repaired(old(NumbersOf(list))[dragged.value := at], dragged.value))
  {
    dragged := None;
    if buffer == "none" {
      return;
    }
    var at := match location
              case Before => target.orderNumber
              case After => target.orderNumber + 1
              case On => target.orderNumber + 1
              case Nowhere => list[|list| - 1].orderNumber + 1;
    for i := 0 to |list|
      invariant dragged == Dragged(list[..i], buffer)
    {
      assert list[..i + 1][..i] == list[..i];
      if buffer == KeyOf(list[i]) {
        dragged := Some(list[i]);
      }
    }
    assert list[..|list|] == list;
    DraggedIsThere(list, buffer);
    if dragged.Some? {
      dragged.value.orderNumber := at;
      assert NumbersOf(list) == old(NumbersOf(list))[dragged.value := at];
      ExcludeDuplicatedOrderNumbers(dragged.value, list);
    }
  }

  // What the repair achieves.

  ghost predicate AllDistinct(m: Numbers) {
    forall x, y | x in m && y in m && x != y :: m[x] != m[y]
  }

  /** No number is raised by more than one, and u keeps its own. */
  lemma RaisedByOne(m: Numbers, u: StoredColumn, x: StoredColumn)
    requires u in m && x in m
    ensures Repaired(m, u)[u] == m[u] && m[x] <= Repaired(m, u)[x] <= m[x] + 1
    ensures m[x] < m[u] ==> Repaired(m, u)[x] == m[x]
  {
  }

  /** Which number is free to end the pushing at. */
  ghost predicate FreeWithinCache(taken: set<int>, n: int) {
    exists k :: n <= k && (forall j | n <= j < k :: Cached(j)) && k !in taken
  }

  lemma {:induction false} StopIsFree(taken: set<int>, n: int)
    ensures FreeWithinCache(taken, n) <==> Stop(taken, n) !in taken
    decreases CACHE_TO + 1 - n
  {
    if n in taken && Cached(n) {
      StopIsFree(taken, n + 1);
      if FreeWithinCache(taken, n) {
        var k :| n <= k && (forall j | n <= j < k :: Cached(j)) && k !in taken;
        assert n + 1 <= k;
      }
      if FreeWithinCache(taken, n + 1) {
        var k :| n + 1 <= k && (forall j | n + 1 <= j < k :: Cached(j)) && k !in taken;
        assert forall j | n <= j < k :: Cached(j);
      }
    } else if n in taken {
      forall k | n <= k && (forall j | n <= j < k :: Cached(j)) ensures k in taken {
        assert k == n || Cached(n);
      }
    }
  }

  /** All numbers are distinct after the repair exactly if a free number can be reached from
      u's number through cached ones: outside the cache a duplicate goes unnoticed. */
  lemma DistinctExactly(m: Numbers, u: StoredColumn)
    requires u in m && OthersDistinct(m, u)
    ensures AllDistinct(Repaired(m, u)) <==> FreeWithinCache(Others(m, u), m[u])
  {
    var taken, n := Others(m, u), m[u];
    var stop, r := Stop(taken, n), Repaired(m, u);
    StopIsFree(taken, n);
    StopIsAbove(taken, n);
    if stop in taken {
      var x: StoredColumn :| x in m && x != u && m[x] == stop;
      if stop == n {
        assert r[x] == r[u];
      } else {
        assert stop - 1 in taken;
        var y: StoredColumn :| y in m && y != u && m[y] == stop - 1;
        assert r[y] == stop == r[x];
      }
    } else {
      forall x, y | x in m && y in m && x != y ensures r[x] != r[y] {
        assert x != u ==> m[x] in taken;
        assert y != u ==> m[y] in taken;
      }
    }
  }

  /** Two columns numbered 128 stay as they are. */
  lemma OutsideTheCache(m: Numbers, u: StoredColumn, x: StoredColumn)
    requires u != x && m == map[u := 128, x := 128]
    ensures OthersDistinct(m, u) && Repaired(m, u) == m && !AllDistinct(Repaired(m, u))
  {
    NothingToPush(m, u);
    assert m[u] == m[x];
  }

  /** The other columns keep their order. */
  lemma OrderKept(m: Numbers, u: StoredColumn, x: StoredColumn, y: StoredColumn)
    requires u in m && x in m && y in m && x != u && y != u && m[x] < m[y]
    ensures Repaired(m, u)[x] <= Repaired(m, u)[y]
    ensures FreeWithinCache(Others(m, u), m[u]) ==> Repaired(m, u)[x] < Repaired(m, u)[y]
  {
    StopIsFree(Others(m, u), m[u]);
    assert m[y] in Others(m, u);
  }
}
