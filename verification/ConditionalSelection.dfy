/** Conditional selections: a matrix of conditions over an item's properties, looked up through
    references, decides which options are offered, and Dependencies lists the properties. */
module ConditionalSelection {
  import opened Wrappers
  import opened ClassMetas
  import Text
  import ItemProperties

  /** A property value; null and other objects included. */
  datatype Value = Null | Str(text: string) | Object(id: int) | Many(items: seq<Value>)

  /** ConditionType, in the numbering of its codes; None is any other code. */
  datatype ConditionType = EQUAL | NOT_EQUAL | EMPTY | NOT_EMPTY | LIKE | LESS | MORE | LESS_OR_EQUAL | MORE_OR_EQUAL | IN | CONTAINS

  function FromInt(v: int): Option<ConditionType> {
    match v
    case 0 => Some(EQUAL)
    case 1 => Some(NOT_EQUAL)
    case 2 => Some(EMPTY)
    case 3 => Some(NOT_EMPTY)
    case 4 => Some(LIKE)
    case 5 => Some(LESS)
    case 6 => Some(MORE)
    case 7 => Some(LESS_OR_EQUAL)
    case 8 => Some(MORE_OR_EQUAL)
    case 9 => Some(IN)
    case 10 => Some(CONTAINS)
    case _ => None
  }

  datatype Condition = Condition(property: string, operation: int, value: string)

  datatype Row = Row(conditions: seq<Condition>, result: seq<(string, string)>)

  /** An item: its class and what its base object holds. */
  datatype Item = Item(cls: string, values: map<string, Value>)

  /** What loading the item a reference refers to comes to. */
  datatype Referral = Nobody | Fails | Refers(item: Item)

  /** The classes, and what the runtime does with values: text form, compareTo, regular
      expressions, parsing a literal for a type, None where it throws, and loading the item of a
      class that a value stands for. */
  datatype Runtime = Runtime(
    g: Model,
    text: Value -> string,
    compare: (Value, Value) -> Option<int>,
    matches: (string, string) -> Option<bool>,
    parse: (int, string) -> Option<Value>,
    refer: (string, Value) -> Referral)

  /** An item referred to is of the referenced class or of one below it. */
  ghost predicate Typed(rt: Runtime) {
    forall c, v {:trigger rt.refer(c, v)} | rt.refer(c, v).Refers? :: Above(rt.g, rt.refer(c, v).item.cls, c)
  }

  /** The text form of a string is the string itself. */
  ghost predicate Textual(rt: Runtime) {
    forall s :: rt.text(Str(s)) == s
  }

  // Looking up properties and values, through references.

  /** getProperties().get(name). */
  function OwnProperty(g: Model, cls: string, name: string): Option<Prop> {
    var index := ItemProperties.PutClass(g, map[], cls);
    if name in index then Some(index[name]) else None
  }

  /** GetObjectProperty: no field or method has a dot in its name. */
  function OwnValue(item: Item, name: string): Value {
    if '.' !in name && name in item.values then item.values[name] else Null
  }

  /** getAgregate. */
  function Referred(rt: Runtime, item: Item, a: string): Referral {
    var p := OwnProperty(rt.g, item.cls, a);
    if p.Some? && p.value.kind.Reference? && OwnValue(item, a) != Null then rt.refer(p.value.kind.cls, OwnValue(item, a)) else Nobody
  }

  /** Item.Get. */
  function Get(rt: Runtime, item: Item, name: string): Value
    decreases |name|
  {
    var dot := Text.IndexOf(name, '.');
    if dot < 0 then OwnValue(item, name)
    else
      match Referred(rt, item, name[..dot])
      case Refers(i) => Get(rt, i, name[dot + 1..])
      case Fails => Null
      case Nobody => OwnValue(item, name)
  }

  /** Item.Property; None where there is none, and where the lookup throws. */
  function PropertyOf(rt: Runtime, item: Item, name: string): Option<Prop>
    decreases |name|
  {
    var dot := Text.IndexOf(name, '.');
    if dot < 0 then OwnProperty(rt.g, item.cls, name)
    else
      match Referred(rt, item, name[..dot])
      case Refers(i) => PropertyOf(rt, i, name[dot + 1..])
      case Fails => None
      case Nobody => OwnProperty(rt.g, item.cls, name)
  }

  /** The item at the end of the references, if each of them is set and can be loaded. */
  function EndOf(rt: Runtime, item: Item, steps: seq<string>): Option<Item>
    decreases |steps|
  {
    if steps == [] then Some(item)
    else
      var p := OwnProperty(rt.g, item.cls, steps[0]);
      if p.Some? && p.value.kind.Reference? && steps[0] in item.values && item.values[steps[0]] != Null then
        match rt.refer(p.value.kind.cls, item.values[steps[0]])
        case Refers(i) => EndOf(rt, i, steps[1..])
        case _ => None
      else None
  }

  function Path(steps: seq<string>, last: string): string {
    if steps == [] then last else steps[0] + ['.'] + Path(steps[1..], last)
  }

  /** A dotted name is looked up in the item at the end of its references; where one of them leads
      nowhere, the value is null and there is no property. */
  lemma {:induction false} LookUpAlong(rt: Runtime, item: Item, steps: seq<string>, last: string)
    requires WellNamed(rt.g) && '.' !in last && forall k | 0 <= k < |steps| :: '.' !in steps[k]
    ensures var end, name := EndOf(rt, item, steps), Path(steps, last);
            && Get(rt, item, name) == (if end.Some? && last in end.value.values then end.value.values[last] else Null)
            && PropertyOf(rt, item, name) == (if end.Some? then OwnProperty(rt.g, end.value.cls, last) else None)
    decreases |steps|
  {
    hide WellNamed, OwnProperty;
    if steps == [] {
      assert Text.IndexOf(last, '.') == -1;
    } else {
      var rest := Path(steps[1..], last);
      Splits(steps[0], '.', rest);
      NoDottedKey(rt.g, item.cls, steps[0] + ['.'] + rest);
      match Referred(rt, item, steps[0])
      case Refers(i) => LookUpAlong(rt, i, steps[1..], last);
      case _ =>
    }
  }

  function OrEmpty(v: Value): Value {
    if v == Null then Str("") else v
  }

  /** _cmp_cond_v; None where a comparison throws. */
  function Compare(rt: Runtime, v1: Value, t: ConditionType, v2: Value): Option<bool> {
    var a, b := OrEmpty(v1), OrEmpty(v2);
    match t
    case EMPTY => Some(rt.text(a) == "")
    case EQUAL => Some(a == b)
    case NOT_EMPTY => Some(rt.text(a) != "")
    case NOT_EQUAL => Some(a != b)
    case LESS => (match rt.compare(a, b) case None => None case Some(c) => Some(c < 0))
    case LESS_OR_EQUAL => (match rt.compare(a, b) case None => None case Some(c) => Some(c <= 0))
    case MORE => (match rt.compare(a, b) case None => None case Some(c) => Some(c > 0))
    case MORE_OR_EQUAL => (match rt.compare(a, b) case None => None case Some(c) => Some(c >= 0))
    case IN => Some(if b.Many? then a in b.items else a == b)
    case LIKE => rt.matches(rt.text(a), rt.text(b))
    case CONTAINS => Some(false)
  }

  /** One condition on an item; None where the source throws. */
  function Test(rt: Runtime, item: Item, c: Condition): Option<bool> {
    match PropertyOf(rt, item, c.property)
    case None => None
    case Some(p) =>
      match rt.parse(Code(p.kind), c.value)
      case None => None
      case Some(v) =>
        match FromInt(c.operation)
        case None => None
        case Some(t) => Compare(rt, Get(rt, item, c.property), t, v)
  }

  /** All conditions of a row, up to the first that fails or throws. */
  function Matches(rt: Runtime, item: Item, cs: seq<Condition>): Option<bool> {
    if cs == [] then Some(true)
    else
      match Test(rt, item, cs[0])
      case None => None
      case Some(false) => Some(false)
      case Some(true) => Matches(rt, item, cs[1..])
  }

  function Put(m: map<string, string>, kvs: seq<(string, string)>): map<string, string> {
    if kvs == [] then m else Put(m, kvs[..|kvs| - 1])[kvs[|kvs| - 1].0 := kvs[|kvs| - 1].1]
  }

  /** The rows from the front; None once one of them throws. */
  function Selected(rt: Runtime, item: Item, matrix: seq<Row>): Option<map<string, string>> {
    if matrix == [] then Some(map[])
    else
      match Selected(rt, item, matrix[..|matrix| - 1])
      case None => None
      case Some(m) =>
        match Matches(rt, item, matrix[|matrix| - 1].conditions)
        case None => None
        case Some(ok) => Some(if ok then Put(m, matrix[|matrix| - 1].result) else m)
  }

  // What a condition means.

  /** Values are compared by an order: the sign of compareTo tells which of the two is below. */
  ghost predicate Ordered(rt: Runtime, below: (Value, Value) -> bool) {
    forall a, b {:trigger rt.compare(a, b)} | rt.compare(a, b).Some? ::
      (rt.compare(a, b).value < 0 <==> below(a, b)) && (rt.compare(a, b).value > 0 <==> below(b, a))
  }

  /** Null counts as the empty text. */
  predicate Alike(v: Value, w: Value) {
    v == w || (v == Null && w == Str("")) || (v == Str("") && w == Null)
  }

  /** The operation, by its code, throws on an item's value a and a literal b, neither of them null. */
  predicate Throws(rt: Runtime, operation: int, a: Value, b: Value) {
    || operation < 0 || operation > 10
    || (5 <= operation <= 8 && rt.compare(a, b).None?)
    || (operation == 4 && rt.matches(rt.text(a), rt.text(b)).None?)
  }

  /** The operation holds of an item's value a and a literal b, neither of them null. */
  ghost predicate Holds(rt: Runtime, below: (Value, Value) -> bool, operation: int, a: Value, b: Value) {
    match operation
    case 0 => a == b
    case 1 => a != b
    case 2 => rt.text(a) == ""
    case 3 => rt.text(a) != ""
    case 4 => rt.matches(rt.text(a), rt.text(b)) == Some(true)
    case 5 => below(a, b)
    case 6 => below(b, a)
    case 7 => !below(b, a)
    case 8 => !below(a, b)
    case 9 => if b.Many? then exists i :: 0 <= i < |b.items| && b.items[i] == a else a == b
    case _ => false
  }

  /** There is no such property, its type does not take the literal, or the operation throws. */
  ghost predicate Stops(rt: Runtime, item: Item, c: Condition) {
    var p := PropertyOf(rt, item, c.property);
    p.None? || rt.parse(Code(p.value.kind), c.value).None?
    || exists a, b :: Alike(a, Get(rt, item, c.property)) && Alike(b, rt.parse(Code(p.value.kind), c.value).value)
                      && a != Null && b != Null && Throws(rt, c.operation, a, b)
  }

  /** The operation holds of the item's value and the literal. */
  ghost predicate Met(rt: Runtime, below: (Value, Value) -> bool, item: Item, c: Condition) {
    var p := PropertyOf(rt, item, c.property);
    && p.Some? && rt.parse(Code(p.value.kind), c.value).Some?
    && exists a, b :: Alike(a, Get(rt, item, c.property)) && Alike(b, rt.parse(Code(p.value.kind), c.value).value)
                      && a != Null && b != Null && !Throws(rt, c.operation, a, b) && Holds(rt, below, c.operation, a, b)
  }

  lemma AlikeIsFilled(v: Value, a: Value)
    requires a != Null
    ensures Alike(a, v) <==> a == OrEmpty(v)
  {
  }

  lemma CompareMeans(rt: Runtime, below: (Value, Value) -> bool, operation: int, v: Value, w: Value)
    requires Ordered(rt, below)
    ensures var r := match FromInt(operation) case None => None case Some(t) => Compare(rt, v, t, w);
            var a, b := OrEmpty(v), OrEmpty(w);
            && (r.None? <==> Throws(rt, operation, a, b))
            && (r.Some? ==> (r.value <==> Holds(rt, below, operation, a, b)))
  {
  }

  /** A condition throws, holds or fails as its operation says. */
  lemma TestMeans(rt: Runtime, below: (Value, Value) -> bool, item: Item, c: Condition)
    requires Ordered(rt, below)
    ensures var r := Test(rt, item, c);
            && (r.None? <==> Stops(rt, item, c))
            && (r == Some(true) <==> Met(rt, below, item, c))
  {
    hide Get, PropertyOf, FromInt, Compare, Throws, Holds, OrEmpty, Alike;
    var p := PropertyOf(rt, item, c.property);
    if p.Some? && rt.parse(Code(p.value.kind), c.value).Some? {
      var v, w := Get(rt, item, c.property), rt.parse(Code(p.value.kind), c.value).value;
      var a, b := OrEmpty(v), OrEmpty(w);
      assert a != Null && b != Null by { FilledIsThere(v); FilledIsThere(w); }
      forall x: Value | x != Null
        ensures Alike(x, v) <==> x == a
        ensures Alike(x, w) <==> x == b {
        AlikeIsFilled(v, x);
        AlikeIsFilled(w, x);
      }
      CompareMeans(rt, below, c.operation, v, w);
    }
  }

  lemma FilledIsThere(v: Value)
    ensures OrEmpty(v) != Null
  {
  }

  /** Condition k is the first of the row that does not hold, and it throws. */
  ghost predicate StopsAt(rt: Runtime, below: (Value, Value) -> bool, item: Item, cs: seq<Condition>, k: nat) {
    k < |cs| && Stops(rt, item, cs[k]) && forall j | 0 <= j < k :: Met(rt, below, item, cs[j])
  }

  /** A row matches exactly if all its conditions are met, and throws exactly if the first that is
      not met throws. */
  lemma {:induction false} RowMeans(rt: Runtime, below: (Value, Value) -> bool, item: Item, cs: seq<Condition>)
    requires Ordered(rt, below)
    ensures var r := Matches(rt, item, cs);
            && (r == Some(true) <==> forall k | 0 <= k < |cs| :: Met(rt, below, item, cs[k]))
            && (r.None? <==> exists k: nat :: StopsAt(rt, below, item, cs, k))
  {
    hide Met, Stops, Test, Ordered;
    if cs != [] {
      TestMeans(rt, below, item, cs[0]);
      RowMeans(rt, below, item, cs[1..]);
      if k: nat :| StopsAt(rt, below, item, cs, k) && k > 0 {
        assert Met(rt, below, item, cs[0]);
        assert StopsAt(rt, below, item, cs[1..], k - 1);
      }
      if k: nat :| StopsAt(rt, below, item, cs[1..], k) && Met(rt, below, item, cs[0]) {
        forall j | 0 <= j < k + 1 ensures Met(rt, below, item, cs[j]) {
          assert j > 0 ==> cs[j] == cs[1..][j - 1];
        }
        assert StopsAt(rt, below, item, cs, k + 1);
      }
      if StopsAt(rt, below, item, cs, 0) {
        assert Stops(rt, item, cs[0]);
      }
      if Stops(rt, item, cs[0]) {
        assert StopsAt(rt, below, item, cs, 0);
      }
    }
  }

  /** The value a row gives a key: the last one listed. */
  function LastIn(kvs: seq<(string, string)>, key: string): Option<string> {
    if kvs == [] then None
    else if kvs[|kvs| - 1].0 == key then Some(kvs[|kvs| - 1].1)
    else LastIn(kvs[..|kvs| - 1], key)
  }

  lemma {:induction false} PutLast(m: map<string, string>, kvs: seq<(string, string)>, key: string)
    ensures var v := LastIn(kvs, key);
            if v.Some? then key in Put(m, kvs) && Put(m, kvs)[key] == v.value
            else (key in Put(m, kvs) <==> key in m) && (key in m ==> Put(m, kvs)[key] == m[key])
  {
    if kvs != [] {
      PutLast(m, kvs[..|kvs| - 1], key);
    }
  }

  /** All conditions of row i are met, and it gives the key a value. */
  ghost predicate Gives(rt: Runtime, below: (Value, Value) -> bool, item: Item, matrix: seq<Row>, i: nat, key: string) {
    && i < |matrix| && LastIn(matrix[i].result, key).Some?
    && forall k | 0 <= k < |matrix[i].conditions| :: Met(rt, below, item, matrix[i].conditions[k])
  }

  /** Some row throws before a condition of it fails. */
  ghost predicate SomeRowStops(rt: Runtime, below: (Value, Value) -> bool, item: Item, matrix: seq<Row>) {
    exists i, k: nat :: 0 <= i < |matrix| && StopsAt(rt, below, item, matrix[i].conditions, k)
  }

  /** A key is offered exactly if a row whose conditions are all met has it, with the value of the
      last such row. */
  ghost predicate IsSelection(rt: Runtime, below: (Value, Value) -> bool, item: Item, matrix: seq<Row>, m: map<string, string>) {
    forall key ::
      && (key in m <==> exists i: nat :: Gives(rt, below, item, matrix, i, key))
      && (forall i: nat | Gives(rt, below, item, matrix, i, key) && (forall j: nat | i < j :: !Gives(rt, below, item, matrix, j, key)) ::
            key in m && m[key] == LastIn(matrix[i].result, key).value)
  }

  lemma {:induction false} StopsExactly(rt: Runtime, below: (Value, Value) -> bool, item: Item, matrix: seq<Row>)
    requires Ordered(rt, below)
    ensures Selected(rt, item, matrix).None? <==> SomeRowStops(rt, below, item, matrix)
  {
    hide Matches, Put, StopsAt, Ordered, Met;
    if matrix != [] {
      var front, last := matrix[..|matrix| - 1], |matrix| - 1;
      StopsExactly(rt, below, item, front);
      RowMeans(rt, below, item, matrix[last].conditions);
      if i, k: nat :| 0 <= i < |front| && StopsAt(rt, below, item, front[i].conditions, k) {
        assert StopsAt(rt, below, item, matrix[i].conditions, k);
      }
      if i, k: nat :| 0 <= i < |matrix| && StopsAt(rt, below, item, matrix[i].conditions, k) {
        assert i < last ==> StopsAt(rt, below, item, front[i].conditions, k);
      }
    }
  }

  /** A key is offered exactly if a matching row has it, with the value of the last such row. */
  lemma {:induction false} LastMatchingRowWins(rt: Runtime, below: (Value, Value) -> bool, item: Item, matrix: seq<Row>, key: string)
    requires Ordered(rt, below) && Selected(rt, item, matrix).Some?
    ensures var m := Selected(rt, item, matrix).value;
            && (key in m <==> exists i: nat :: Gives(rt, below, item, matrix, i, key))
            && (forall i: nat | Gives(rt, below, item, matrix, i, key) && (forall j: nat | i < j :: !Gives(rt, below, item, matrix, j, key)) ::
                  m[key] == LastIn(matrix[i].result, key).value)
  {
    hide Matches, Put, LastIn, Met, Ordered, StopsAt;
    if matrix == [] {
    } else {
      var front, last := matrix[..|matrix| - 1], |matrix| - 1;
      LastMatchingRowWins(rt, below, item, front, key);
      RowMeans(rt, below, item, matrix[last].conditions);
      var before := Selected(rt, item, front).value;
      PutLast(before, matrix[last].result, key);
      forall i: nat | i < last ensures Gives(rt, below, item, matrix, i, key) <==> Gives(rt, below, item, front, i, key) {
        assert front[i] == matrix[i];
      }
      if Gives(rt, below, item, matrix, last, key) {
      } else {
        forall i: nat ensures Gives(rt, below, item, matrix, i, key) <==> Gives(rt, below, item, front, i, key) {
        }
      }
    }
  }

  lemma SelectionMeans(rt: Runtime, below: (Value, Value) -> bool, item: Item, matrix: seq<Row>)
    requires Ordered(rt, below) && Selected(rt, item, matrix).Some?
    ensures IsSelection(rt, below, item, matrix, Selected(rt, item, matrix).value)
  {
    hide Met, Selected, LastIn, Ordered;
    forall key
      ensures var m := Selected(rt, item, matrix).value;
              && (key in m <==> exists i: nat :: Gives(rt, below, item, matrix, i, key))
              && (forall i: nat | Gives(rt, below, item, matrix, i, key) && (forall j: nat | i < j :: !Gives(rt, below, item, matrix, j, key)) ::
                    m[key] == LastIn(matrix[i].result, key).value) {
      LastMatchingRowWins(rt, below, item, matrix, key);
    }
  }

  method MatchRow(rt: Runtime, item: Item, cs: seq<Condition>) returns (ok: Option<bool>)
    ensures ok == Matches(rt, item, cs)
  {
    for i := 0 to |cs|
      invariant Matches(rt, item, cs) == Matches(rt, item, cs[i..])
    {
      assert cs[i..][1..] == cs[i + 1..];
      var t := Test(rt, item, cs[i]);
      if t != Some(true) {
        return t;
      }
    }
    ok := Some(true);
  }

  /** SelectList for an item; None where the source throws. */
  method SelectList(rt: Runtime, item: Item, matrix: seq<Row>) returns (result: Option<map<string, string>>)
    ensures result == Selected(rt, item, matrix)
    ensures forall below | Ordered(rt, below) ::
              && (result.None? <==> SomeRowStops(rt, below, item, matrix))
              && (result.Some? ==> IsSelection(rt, below, item, matrix, result.value))
  {
    hide Ordered, SomeRowStops, IsSelection;
    forall below | Ordered(rt, below)
      ensures Selected(rt, item, matrix).None? <==> SomeRowStops(rt, below, item, matrix)
      ensures Selected(rt, item, matrix).Some? ==> IsSelection(rt, below, item, matrix, Selected(rt, item, matrix).value) {
      StopsExactly(rt, below, item, matrix);
      if Selected(rt, item, matrix).Some? {
        SelectionMeans(rt, below, item, matrix);
      }
    }
    var m := map[];
    for i := 0 to |matrix|
      invariant Selected(rt, item, matrix[..i]) == Some(m)
    {
      assert matrix[..i + 1][..i] == matrix[..i];
      var ok := MatchRow(rt, item, matrix[i].conditions);
      if ok.None? {
        ThrowsOn(rt, item, matrix, i + 1);
        return None;
      }
      if ok.value {
        var kvs := matrix[i].result;
        ghost var before := m;
        for j := 0 to |kvs|
          invariant m == Put(before, kvs[..j])
        {
          assert kvs[..j + 1][..j] == kvs[..j];
          m := m[kvs[j].0 := kvs[j].1];
        }
        assert kvs[..|kvs|] == kvs;
      }
    }
    assert matrix[..|matrix|] == matrix;
    result := Some(m);
  }

  /** A row that throws ends the selection, whatever follows. */
  lemma {:induction false} ThrowsOn(rt: Runtime, item: Item, matrix: seq<Row>, i: nat)
    requires i <= |matrix| && Selected(rt, item, matrix[..i]).None?
    ensures Selected(rt, item, matrix).None?
    decreases |matrix| - i
  {
    if i < |matrix| {
      assert matrix[..i + 1][..i] == matrix[..i];
      ThrowsOn(rt, item, matrix, i + 1);
    } else {
      assert matrix[..i] == matrix;
    }
  }

  /** Dependencies. */
  function DependenciesOf(cs: seq<Condition>): (r: seq<string>)
    ensures |r| == |cs| && forall i | 0 <= i < |cs| :: r[i] == cs[i].property
  {
    seq(|cs|, i requires 0 <= i < |cs| => cs[i].property)
  }

  function Dependencies(matrix: seq<Row>): seq<string> {
    if matrix == [] then [] else Dependencies(matrix[..|matrix| - 1]) + DependenciesOf(matrix[|matrix| - 1].conditions)
  }

  /** The number of conditions in the first i rows. */
  function ConditionsBefore(matrix: seq<Row>, i: nat): nat
    requires i <= |matrix|
  {
    if i == 0 then 0 else ConditionsBefore(matrix, i - 1) + |matrix[i - 1].conditions|
  }

  /** The properties of all conditions, row by row, each as often as it occurs. */
  lemma {:induction false} DependencyAt(matrix: seq<Row>, i: nat, j: nat)
    requires i < |matrix| && j < |matrix[i].conditions|
    ensures ConditionsBefore(matrix, i) + j < |Dependencies(matrix)| == ConditionsBefore(matrix, |matrix|)
    ensures Dependencies(matrix)[ConditionsBefore(matrix, i) + j] == matrix[i].conditions[j].property
  {
    var front, last := matrix[..|matrix| - 1], |matrix| - 1;
    DependencyCount(front);
    BeforeInFront(matrix, last);
    if i < last {
      DependencyAt(front, i, j);
      BeforeInFront(matrix, i);
    }
  }

  lemma {:induction false} DependencyCount(matrix: seq<Row>)
    ensures |Dependencies(matrix)| == ConditionsBefore(matrix, |matrix|)
  {
    if matrix != [] {
      DependencyCount(matrix[..|matrix| - 1]);
      BeforeInFront(matrix, |matrix| - 1);
    }
  }

  lemma {:induction false} BeforeInFront(matrix: seq<Row>, i: nat)
    requires i < |matrix|
    ensures ConditionsBefore(matrix[..|matrix| - 1], i) == ConditionsBefore(matrix, i)
  {
    if i > 0 {
      BeforeInFront(matrix, i - 1);
    }
  }

  method ListDependencies(matrix: seq<Row>) returns (result: seq<string>)
    ensures result == Dependencies(matrix)
  {
    result := [];
    for i := 0 to |matrix|
      invariant result == Dependencies(matrix[..i])
    {
      assert matrix[..i + 1][..i] == matrix[..i];
      ghost var before := result;
      var cs := matrix[i].conditions;
      for j := 0 to |cs|
        invariant result == before + DependenciesOf(cs)[..j]
      {
        result := result + [cs[j].property];
      }
      assert DependenciesOf(cs)[..|cs|] == DependenciesOf(cs);
    }
    assert matrix[..|matrix|] == matrix;
  }

  /** The two items are of one class and cannot be told apart by these properties. */
  predicate Agree(rt: Runtime, x: Item, y: Item, properties: seq<string>) {
    x.cls == y.cls && forall p | p in properties :: Get(rt, x, p) == Get(rt, y, p)
  }

  /** They also have these properties with the same metas, or both do not have them. */
  predicate SameMetas(rt: Runtime, x: Item, y: Item, properties: seq<string>) {
    forall p | p in properties :: PropertyOf(rt, x, p) == PropertyOf(rt, y, p)
  }

  lemma {:induction false} RowDepends(rt: Runtime, x: Item, y: Item, cs: seq<Condition>)
    requires Agree(rt, x, y, DependenciesOf(cs)) && SameMetas(rt, x, y, DependenciesOf(cs))
    ensures Matches(rt, x, cs) == Matches(rt, y, cs)
  {
    hide Get, PropertyOf;
    if cs != [] {
      assert cs[0].property == DependenciesOf(cs)[0];
      assert DependenciesOf(cs)[1..] == DependenciesOf(cs[1..]);
      forall p | p in DependenciesOf(cs[1..]) ensures p in DependenciesOf(cs) {
        assert p in DependenciesOf(cs)[1..];
      }
      RowDepends(rt, x, y, cs[1..]);
    }
  }

  /** Items with the same values and the same metas under the listed names get the same selection,
      or the same exception, from the matrix. */
  lemma {:induction false} SameSelection(rt: Runtime, x: Item, y: Item, matrix: seq<Row>)
    requires Agree(rt, x, y, Dependencies(matrix)) && SameMetas(rt, x, y, Dependencies(matrix))
    ensures Selected(rt, x, matrix) == Selected(rt, y, matrix)
  {
    hide Get, PropertyOf;
    if matrix != [] {
      SameSelection(rt, x, y, matrix[..|matrix| - 1]);
      RowDepends(rt, x, y, matrix[|matrix| - 1].conditions);
    }
  }

  // When Dependencies is complete.

  function HeadOf(name: string): string
    requires '.' in name
  {
    name[..Text.IndexOf(name, '.')]
  }

  function RestOf(name: string): (r: string)
    requires '.' in name
    ensures |r| < |name|
  {
    name[Text.IndexOf(name, '.') + 1..]
  }

  /** Some item of the class can have the property: on the way, references may lead to any class
      below the referenced one. */
  ghost predicate CanHave(g: Model, cls: string, name: string)
    decreases |name|
  {
    if '.' in name then
      var p := OwnProperty(g, cls, HeadOf(name));
      p.Some? && p.value.kind.Reference? && exists d :: Above(g, d, p.value.kind.cls) && CanHave(g, d, RestOf(name))
    else OwnProperty(g, cls, name).Some?
  }

  /** Every reference that a listed name starts with is listed itself. */
  ghost predicate StartsListed(g: Model, cls: string, properties: seq<string>) {
    forall p | p in properties && '.' in p && CanHave(g, cls, p) :: HeadOf(p) in properties
  }

  /** Whatever the matrix with these dependencies, whatever the runtime: two items of the class
      that agree on the dependencies get the same selection, or the same exception. */
  ghost predicate Complete(g: Model, cls: string, properties: seq<string>) {
    forall rt: Runtime, x: Item, y: Item, matrix: seq<Row> {:trigger Selected(rt, x, matrix), Selected(rt, y, matrix)} |
      && rt.g == g && Typed(rt) && Textual(rt) && x.cls == cls
      && (forall p :: p in Dependencies(matrix) <==> p in properties)
      && Agree(rt, x, y, properties) ::
        Selected(rt, x, matrix) == Selected(rt, y, matrix)
  }

  lemma NoDottedKey(g: Model, cls: string, name: string)
    requires WellNamed(g) && '.' in name
    ensures OwnProperty(g, cls, name).None?
  {
    if OwnProperty(g, cls, name).Some? {
      ItemProperties.KeysAreDotFree(g, cls, name);
    }
  }

  /** What no item of its class can have, an item does not have. */
  lemma {:induction false} NeverThere(rt: Runtime, item: Item, name: string)
    requires WellNamed(rt.g) && Typed(rt) && PropertyOf(rt, item, name).Some?
    ensures CanHave(rt.g, item.cls, name)
    decreases |name|
  {
    hide WellNamed;
    if '.' in name {
      NoDottedKey(rt.g, item.cls, name);
      var i := Referred(rt, item, HeadOf(name)).item;
      NeverThere(rt, i, RestOf(name));
      var p := OwnProperty(rt.g, item.cls, HeadOf(name)).value;
      assert Above(rt.g, i.cls, p.kind.cls);
    }
  }

  lemma HeadIsPlain(name: string)
    requires '.' in name
    ensures '.' !in HeadOf(name)
  {
  }

  /** A dotted name whose reference is the same leads to the same property. */
  lemma PropertyDepends(rt: Runtime, x: Item, y: Item, properties: seq<string>, p: string)
    requires WellNamed(rt.g) && Typed(rt) && StartsListed(rt.g, x.cls, properties) && Agree(rt, x, y, properties) && p in properties
    ensures PropertyOf(rt, x, p) == PropertyOf(rt, y, p)
  {
    hide Typed, WellNamed;
    if PropertyOf(rt, x, p).Some? {
      NeverThere(rt, x, p);
    }
    if PropertyOf(rt, y, p).Some? {
      NeverThere(rt, y, p);
    }
    if '.' in p && CanHave(rt.g, x.cls, p) {
      var h := HeadOf(p);
      HeadIsPlain(p);
      assert Get(rt, x, h) == Get(rt, y, h);
      assert Referred(rt, x, h) == Referred(rt, y, h);
    }
  }

  /** Dependencies is complete for a matrix without dotted conditions, and for one in which the
      references they start with are conditions too. */
  lemma DependenciesAreComplete(rt: Runtime, x: Item, y: Item, matrix: seq<Row>)
    requires WellNamed(rt.g) && Typed(rt) && StartsListed(rt.g, x.cls, Dependencies(matrix))
    requires Agree(rt, x, y, Dependencies(matrix))
    ensures Selected(rt, x, matrix) == Selected(rt, y, matrix)
  {
    hide WellNamed, Typed, StartsListed, Agree, Dependencies;
    forall p | p in Dependencies(matrix) ensures PropertyOf(rt, x, p) == PropertyOf(rt, y, p) {
      PropertyDepends(rt, x, y, Dependencies(matrix), p);
    }
    SameSelection(rt, x, y, matrix);
  }

  // When it is not: an item whose references lead to a value that is null, against one whose
  // first reference is null.

  /** d leads to a reference on the way that name takes. */
  predicate OnTheWay(d: string, name: string) {
    |d| < |name| && name[..|d|] == d && name[|d|] == '.'
  }

  /** A class below cls whose items can have the property. */
  ghost function Pick(g: Model, cls: string, name: string): (d: string)
    ensures Above(g, d, cls)
    ensures (exists e :: Above(g, e, cls) && CanHave(g, e, name)) ==> CanHave(g, d, name)
  {
    if exists e :: Above(g, e, cls) && CanHave(g, e, name) then
      var e :| Above(g, e, cls) && CanHave(g, e, name); e
    else cls
  }

  /** An item with nothing but the first reference of the name; the number tells what it leads to. */
  function Link(cls: string, name: string): Item {
    Item(cls, if '.' in name then map[HeadOf(name) := Object(|RestOf(name)|)] else map[])
  }

  /** A runtime in which the numbers lead along the rest of the name, and literals stand for themselves. */
  ghost function Along(g: Model, name: string): Runtime {
    Runtime(g, (v: Value) => if v.Str? then v.text else "", (v, w) => None, (s, t) => None, (t, s) => Some(Str(s)),
            (cls: string, v: Value) =>
              if v.Object? && 0 <= v.id <= |name| then
                var rest := name[|name| - v.id..];
                Refers(Link(Pick(g, cls, rest), rest))
              else Nobody)
  }

  lemma AlongIsTyped(g: Model, name: string)
    ensures Typed(Along(g, name)) && Textual(Along(g, name))
  {
  }

  lemma LinkHolds(cls: string, part: string)
    ensures Link(cls, part).cls == cls
    ensures '.' in part ==> OwnValue(Link(cls, part), HeadOf(part)) == Object(|RestOf(part)|)
  {
  }

  lemma AlongRefers(g: Model, name: string, cls: string, rest: string)
    requires |rest| <= |name| && name[|name| - |rest|..] == rest
    ensures Along(g, name).g == g && Along(g, name).refer(cls, Object(|rest|)) == Refers(Link(Pick(g, cls, rest), rest))
  {
    hide Pick, Link;
  }

  lemma RestIsLast(name: string, part: string)
    requires |part| <= |name| && name[|name| - |part|..] == part && '.' in part
    ensures name[|name| - |RestOf(part)|..] == RestOf(part)
  {
  }

  lemma NextCanHave(g: Model, cls: string, part: string)
    requires '.' in part && CanHave(g, cls, part)
    ensures var p := OwnProperty(g, cls, HeadOf(part));
            p.Some? && p.value.kind.Reference? && CanHave(g, Pick(g, p.value.kind.cls, RestOf(part)), RestOf(part))
  {
    hide OwnProperty, HeadOf, RestOf;
  }

  /** Where the first reference of a part of the name leads. */
  lemma AlongStep(g: Model, name: string, cls: string, part: string)
    requires |part| <= |name| && name[|name| - |part|..] == part && '.' in part && CanHave(g, cls, part)
    ensures var rest, next := RestOf(part), Referred(Along(g, name), Link(cls, part), HeadOf(part));
            && next.Refers? && next.item == Link(next.item.cls, rest) && CanHave(g, next.item.cls, rest)
            && name[|name| - |rest|..] == rest
  {
    hide OwnProperty, OwnValue, Link, Along, HeadOf, RestOf, Pick, CanHave;
    NextCanHave(g, cls, part);
    HeadIsPlain(part);
    RestIsLast(name, part);
    var p, rest := OwnProperty(g, cls, HeadOf(part)).value, RestOf(part);
    LinkHolds(cls, part);
    AlongRefers(g, name, p.kind.cls, rest);
    assert Referred(Along(g, name), Link(cls, part), HeadOf(part)) == Refers(Link(Pick(g, p.kind.cls, rest), rest));
    LinkHolds(Pick(g, p.kind.cls, rest), rest);
  }

  lemma {:induction false} AlongHas(g: Model, name: string, cls: string, part: string)
    requires |part| <= |name| && name[|name| - |part|..] == part && CanHave(g, cls, part)
    ensures PropertyOf(Along(g, name), Link(cls, part), part).Some?
    decreases |part|
  {
    hide OwnProperty, Along, Referred, CanHave, Link;
    if '.' in part {
      AlongStep(g, name, cls, part);
      AlongHas(g, name, Referred(Along(g, name), Link(cls, part), HeadOf(part)).item.cls, RestOf(part));
    } else {
      LastIsOwn(g, name, cls, part);
    }
  }

  lemma LastIsOwn(g: Model, name: string, cls: string, part: string)
    requires '.' !in part && CanHave(g, cls, part)
    ensures PropertyOf(Along(g, name), Link(cls, part), part).Some?
  {
    hide OwnProperty, Referred, Pick;
  }

  lemma {:induction false} AlongIsNull(g: Model, name: string, cls: string, part: string, d: string)
    requires |part| <= |name| && name[|name| - |part|..] == part && CanHave(g, cls, part) && !OnTheWay(d, part)
    ensures Get(Along(g, name), Link(cls, part), d) == Null
    decreases |d|
  {
    hide OwnProperty, Along, CanHave, Text.IndexOf;
    if '.' in part && '.' in d && HeadOf(d) == HeadOf(part) {
      hide Referred, Link;
      AlongStep(g, name, cls, part);
      Stepped(d, part);
      AlongIsNull(g, name, Referred(Along(g, name), Link(cls, part), HeadOf(part)).item.cls, RestOf(part), RestOf(d));
    } else {
      HeadIsOnTheWay(part);
      OffTheWay(Along(g, name), cls, part, d);
    }
  }

  lemma HeadIsOnTheWay(part: string)
    ensures '.' in part ==> OnTheWay(HeadOf(part), part)
  {
  }

  lemma OffTheWay(rt: Runtime, cls: string, part: string, d: string)
    requires '.' in part ==> d != HeadOf(part) && ('.' in d ==> HeadOf(d) != HeadOf(part))
    ensures Get(rt, Link(cls, part), d) == Null
  {
    hide OwnProperty, Text.IndexOf;
  }

  /** One step on, the rest of d still is not on the way of the rest. */
  lemma Stepped(d: string, part: string)
    requires '.' in part && '.' in d && HeadOf(d) == HeadOf(part) && !OnTheWay(d, part)
    ensures !OnTheWay(RestOf(d), RestOf(part))
  {
    var h := HeadOf(d);
    var i := |h| + 1;
    assert RestOf(d) == d[i..] && RestOf(part) == part[i..] && d[..i] == part[..i] by {
      assert d[..i] == h + "." == part[..i];
    }
    if |d| < |part| && part[|d|] == '.' {
      assert part[..|d|] == part[..i] + part[i..|d|] && d == d[..i] + d[i..];
      assert RestOf(part)[..|RestOf(d)|] == part[i..|d|];
    }
  }

  lemma EmptyIsNull(rt: Runtime, cls: string, d: string)
    ensures Get(rt, Item(cls, map[]), d) == Null
    ensures WellNamed(rt.g) && '.' in d ==> PropertyOf(rt, Item(cls, map[]), d).None?
  {
    if WellNamed(rt.g) && '.' in d {
      NoDottedKey(rt.g, cls, d);
    }
  }

  lemma SameStart(d: string, name: string)
    requires OnTheWay(d, name)
    ensures '.' in name && if '.' in d then HeadOf(d) == HeadOf(name) && OnTheWay(RestOf(d), RestOf(name)) else HeadOf(name) == d
  {
    var i, j := Text.IndexOf(d, '.'), Text.IndexOf(name, '.');
    if '.' in d {
      assert name[i] == '.' && i == j;
      assert RestOf(name)[..|RestOf(d)|] == name[i + 1..|d|] == d[i + 1..];
    } else {
      assert j == |d|;
    }
  }

  /** A name on the way can be had too. */
  lemma {:induction false} WayIsThere(g: Model, cls: string, d: string, name: string)
    requires CanHave(g, cls, name) && OnTheWay(d, name)
    ensures CanHave(g, cls, d)
    decreases |d|
  {
    hide OwnProperty, Text.IndexOf, Above, HeadOf, RestOf, OnTheWay;
    if '.' in d {
      SameStart(d, name);
      var h := HeadOf(d);
      var p := OwnProperty(g, cls, h).value;
      var e :| Above(g, e, p.kind.cls) && CanHave(g, e, RestOf(name));
      WayIsThere(g, e, RestOf(d), RestOf(name));
    } else {
      SameStart(d, name);
    }
  }

  /** A matrix of one row that asks for p first and then for all the properties. */
  function Asking(p: string, properties: seq<string>): seq<Row> {
    [Row([Condition(p, 3, "")] + seq(|properties|, i requires 0 <= i < |properties| => Condition(properties[i], 3, "")), [])]
  }

  lemma AskingDepends(p: string, properties: seq<string>, q: string)
    requires p in properties
    ensures q in Dependencies(Asking(p, properties)) <==> q in properties
  {
    var m := Asking(p, properties);
    assert m[..0] == [];
    assert DependenciesOf(m[0].conditions) == [p] + properties;
  }

  /** A name that starts with a reference that is not listed: an item without that reference makes
      the selection throw, one with it does not, though they agree on all that is listed. */
  lemma {:induction false} StartMissing(g: Model, cls: string, properties: seq<string>, p: string)
    returns (rt: Runtime, x: Item, y: Item, matrix: seq<Row>)
    requires WellNamed(g) && p in properties && '.' in p && CanHave(g, cls, p) && HeadOf(p) !in properties
    ensures rt.g == g && Typed(rt) && Textual(rt) && x.cls == cls && (forall q :: q in Dependencies(matrix) <==> q in properties)
    ensures Agree(rt, x, y, properties)
    ensures Selected(rt, x, matrix) == None && Selected(rt, y, matrix) == Some(map[])
    decreases |p|
  {
    if d :| d in properties && OnTheWay(d, p) {
      WayIsThere(g, cls, d, p);
      SameStart(d, p);
      rt, x, y, matrix := StartMissing(g, cls, properties, d);
    } else {
      rt, x, y, matrix := Along(g, p), Item(cls, map[]), Link(cls, p), Asking(p, properties);
      AlongIsTyped(g, p);
      assert p[|p| - |p|..] == p;
      forall q | q in properties ensures Get(rt, x, q) == Get(rt, y, q) {
        EmptyIsNull(rt, cls, q);
        AlongIsNull(g, p, cls, p, q);
      }
      forall q ensures q in Dependencies(matrix) <==> q in properties {
        AskingDepends(p, properties, q);
      }
      Asked(g, cls, properties, p);
    }
  }

  lemma Asked(g: Model, cls: string, properties: seq<string>, p: string)
    requires WellNamed(g) && p in properties && '.' in p && CanHave(g, cls, p)
    ensures Selected(Along(g, p), Item(cls, map[]), Asking(p, properties)) == None
    ensures Selected(Along(g, p), Link(cls, p), Asking(p, properties)) == Some(map[])
  {
    hide WellNamed, Get, PropertyOf, CanHave, Test, Link, Along;
    var matrix := Asking(p, properties);
    AskedFirst(g, cls, p);
    assert matrix[..0] == [] && matrix[0].conditions[0] == Condition(p, 3, "");
  }

  lemma AskedFirst(g: Model, cls: string, p: string)
    requires WellNamed(g) && '.' in p && CanHave(g, cls, p)
    ensures Test(Along(g, p), Item(cls, map[]), Condition(p, 3, "")) == None
    ensures Test(Along(g, p), Link(cls, p), Condition(p, 3, "")) == Some(false)
  {
    hide WellNamed, Get, PropertyOf, CanHave, Link;
    assert p[|p| - |p|..] == p;
    EmptyIsNull(Along(g, p), cls, p);
    AlongHas(g, p, cls, p);
    AlongIsNull(g, p, cls, p, p);
  }

  /** Dependencies is complete for a class if and only if every reference that a dotted condition
      starts with is a condition itself. */
  lemma CompleteExactly(g: Model, cls: string, properties: seq<string>)
    requires WellNamed(g)
    ensures Complete(g, cls, properties) <==> StartsListed(g, cls, properties)
  {
    hide WellNamed, Agree, Typed, Textual, Selected, CanHave, Dependencies, HeadOf;
    if StartsListed(g, cls, properties) {
      forall rt: Runtime, x: Item, y: Item, matrix: seq<Row> |
        && rt.g == g && Typed(rt) && Textual(rt) && x.cls == cls
        && (forall p :: p in Dependencies(matrix) <==> p in properties)
        && Agree(rt, x, y, properties)
        ensures Selected(rt, x, matrix) == Selected(rt, y, matrix)
      {
        AgreeOnSame(rt, x, y, properties, Dependencies(matrix));
        DependenciesAreComplete(rt, x, y, matrix);
      }
    } else {
      var p :| p in properties && '.' in p && CanHave(g, cls, p) && HeadOf(p) !in properties;
      var rt, x, y, matrix := StartMissing(g, cls, properties, p);
    }
  }

  lemma AgreeOnSame(rt: Runtime, x: Item, y: Item, properties: seq<string>, others: seq<string>)
    requires Agree(rt, x, y, properties) && forall p | p in others :: p in properties
    ensures Agree(rt, x, y, others)
  {
  }

  /** The shortest case: a reference a that x lacks, and b behind it, null for y. */
  lemma DottedConditionFails(g: Model, cls: string, rt: Runtime, x: Item, y: Item)
    requires WellNamed(g) && rt.g == g && x.cls == y.cls == cls
    requires OwnValue(x, "a") == Null && Referred(rt, y, "a").Refers?
    requires var i := Referred(rt, y, "a").item;
             var b := OwnProperty(g, i.cls, "b");
             OwnValue(i, "b") == Null && b.Some? && rt.parse(Code(b.value.kind), "").Some?
    requires rt.text(Str("")) == ""
    ensures var matrix := [Row([Condition("a.b", 2, "")], [("k", "v")])];
            && Dependencies(matrix) == ["a.b"] && Agree(rt, x, y, ["a.b"])
            && Selected(rt, x, matrix) == None && Selected(rt, y, matrix) == Some(map["k" := "v"])
  {
    hide WellNamed, OwnProperty, Compare, Matches;
    var c := Condition("a.b", 2, "");
    var matrix := [Row([c], [("k", "v")])];
    LookUpDotted(rt, x);
    LookUpDotted(rt, y);
    assert matrix[..0] == [] && Dependencies(matrix) == DependenciesOf([c]) == ["a.b"];
    assert Test(rt, x, c) == None;
    assert Compare(rt, Null, EMPTY, rt.parse(Code(PropertyOf(rt, y, "a.b").value.kind), "").value) == Some(true) by {
      OnlyEmpty(rt, rt.parse(Code(PropertyOf(rt, y, "a.b").value.kind), "").value);
    }
    OneCondition(rt, x, c);
    OneCondition(rt, y, c);
    assert Put(map[], [("k", "v")]) == map["k" := "v"];
  }

  lemma OnlyEmpty(rt: Runtime, v: Value)
    requires rt.text(Str("")) == ""
    ensures Compare(rt, Null, EMPTY, v) == Some(true)
  {
  }

  lemma OneCondition(rt: Runtime, item: Item, c: Condition)
    ensures Matches(rt, item, [c]) == Test(rt, item, c)
  {
    hide Test;
    assert [c][1..] == [];
  }

  lemma LookUpDotted(rt: Runtime, item: Item)
    requires WellNamed(rt.g)
    ensures var next := Referred(rt, item, "a");
            if next.Refers? then Get(rt, item, "a.b") == OwnValue(next.item, "b") && PropertyOf(rt, item, "a.b") == OwnProperty(rt.g, next.item.cls, "b")
            else Get(rt, item, "a.b") == Null && PropertyOf(rt, item, "a.b") == None
  {
    hide WellNamed, OwnProperty, Referred;
    assert "a.b"[1] == '.';
    NoDottedKey(rt.g, item.cls, "a.b");
    assert Text.IndexOf("a.b", '.') == 1 && "a.b"[..1] == "a" && "a.b"[2..] == "b";
    assert Text.IndexOf("b", '.') == -1;
  }
}
