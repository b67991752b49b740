/** The changes a client sends: each is saved in a numbered file, and the server replays the
    files in the order of their names. */
module ChangeFiles {
  import opened ZipVolumes
  import Listing
  import Text

  datatype DataUnit =
    | Unit(id: string, className: string, data: map<string, string>)
    | Change(author: string, action: string, id: string, className: string, data: map<string, string>)

  /** What is read back from the text of a unit. */
  datatype Fields = Fields(author: string, action: string, id: string, className: string, data: map<string, string>)

  function FieldsOf(u: DataUnit): Fields {
    match u
    case Unit(id, className, data) => Fields("", "", id, className, data)
    case Change(author, action, id, className, data) => Fields(author, action, id, className, data)
  }

  datatype Json = Json(write: DataUnit -> Bytes, read: Bytes -> Fields)

  ghost predicate Reads(json: Json) {
    forall u {:trigger json.write(u)} :: json.read(json.write(u)) == FieldsOf(u)
  }

  const NUMBER_WIDTH := 6

  function Suffix(u: DataUnit): string {
    if u.Change? then ".change.json" else ".unit.json"
  }

  /** The name of the k-th saved file. */
  function FileName(k: nat, u: DataUnit): string {
    Text.Padded(k, NUMBER_WIDTH) + Suffix(u)
  }

  predicate EndsWith(s: string, end: string) {
    |s| >= |end| && s[|s| - |end|..] == end
  }

  /** Whether a file holds a change or a plain unit is told by its name. */
  function FromFile(name: string, f: Fields): DataUnit {
    if EndsWith(name, "change.json") then Change(f.author, f.action, f.id, f.className, f.data)
    else Unit(f.id, f.className, f.data)
  }

  lemma FromFileRestores(k: nat, u: DataUnit)
    ensures FromFile(FileName(k, u), FieldsOf(u)) == u
  {
    var s, n := FileName(k, u), Suffix(u);
    var e := "change.json";
    assert |e| == 11;
    if u.Change? {
      assert |n| == 12 && n[1..] == e;
      assert s[|s| - 11..] == n[1..];
    } else {
      assert |n| == 10 && s[|s| - 3] == n[7] == 's' && s[|s| - 6] == n[4] == 't';
      assert e[5] == 'e' && s[|s| - 11..][5] == s[|s| - 6];
    }
  }

  /** The files of a package: the k-th unit in the k-th file. */
  function Saved(json: Json, us: seq<DataUnit>): map<string, Bytes> {
    if us == [] then map[]
    else Saved(json, us[..|us| - 1])[FileName(|us| - 1, us[|us| - 1]) := json.write(us[|us| - 1])]
  }

  /** The directory the client saves its changes to. */
  class Outbox {
    const json: Json
    var changesets: map<string, Bytes>

    constructor (json: Json)
      ensures this.json == json && changesets == map[]
    {
      this.json := json;
      changesets := map[];
    }

    method SaveOutgoingData(u: DataUnit, num: nat)
      modifies this
      ensures changesets == old(changesets)[FileName(num, u) := json.write(u)]
    {
      changesets := changesets[FileName(num, u) := json.write(u)];
    }

    /** The loops of CreateOutgoingPackage over the changes and the auxiliary data. */
    method CreateOutgoingPackage(changes: seq<DataUnit>, auxData: seq<DataUnit>) returns (k: nat)
      requires changesets == map[]
      modifies this
      ensures k == |changes + auxData| && changesets == Saved(json, changes + auxData)
    {
      hide FileName;
      k := 0;
      ghost var all := changes + auxData;
      for i := 0 to |changes|
        invariant k == i && changesets == Saved(json, all[..k])
      {
        assert all[..k + 1][..k] == all[..k] && all[k] == changes[i];
        SaveOutgoingData(changes[i], k);
        k := k + 1;
      }
      for i := 0 to |auxData|
        invariant k == |changes| + i && changesets == Saved(json, all[..k])
      {
        assert all[..k + 1][..k] == all[..k] && all[k] == auxData[i];
        SaveOutgoingData(auxData[i], k);
        k := k + 1;
      }
      assert all[..|all|] == all;
    }
  }

  function FileNames(us: seq<DataUnit>): (r: seq<string>)
    ensures |r| == |us| && forall i | 0 <= i < |us| :: r[i] == FileName(i, us[i])
  {
    seq(|us|, i requires 0 <= i < |us| => FileName(i, us[i]))
  }

  /** The number ends at the first dot of the name. */
  lemma NumberOf(i: nat, u: DataUnit)
    ensures var s, a := FileName(i, u), Text.Padded(i, NUMBER_WIDTH);
            Text.IndexOf(s, '.') == |a| && |a| <= |s| && s[..|a|] == a
  {
    hide Text.Padded;
    var a := Text.Padded(i, NUMBER_WIDTH);
    var x := if u.Change? then "change.json" else "unit.json";
    assert FileName(i, u) == a + ['.'] + x;
    NoDot(a);
    Text.SeparatorPosition(a, '.', x);
  }

  /** The number can be read off the name, so no two units share a file. */
  lemma FileNameInjective(i: nat, u: DataUnit, j: nat, v: DataUnit)
    requires FileName(i, u) == FileName(j, v)
    ensures i == j
  {
    hide FileName, Text.IndexOf;
    NumberOf(i, u);
    NumberOf(j, v);
    Text.ParsePadded(i, NUMBER_WIDTH);
    Text.ParsePadded(j, NUMBER_WIDTH);
  }

  lemma NoDot(s: string)
    requires Text.AllDigits(s)
    ensures '.' !in s
  {
  }

  lemma {:induction false} SavedExact(json: Json, us: seq<DataUnit>)
    ensures forall n :: n in Saved(json, us) <==> n in FileNames(us)
    ensures forall i | 0 <= i < |us| :: FileName(i, us[i]) in Saved(json, us) && Saved(json, us)[FileName(i, us[i])] == json.write(us[i])
  {
    hide FileName;
    if us != [] {
      var front, last := us[..|us| - 1], us[|us| - 1];
      SavedExact(json, front);
      assert FileNames(us) == FileNames(front) + [FileName(|front|, last)];
      forall i | 0 <= i < |front| ensures FileName(i, us[i]) != FileName(|front|, last) {
        if FileName(i, us[i]) == FileName(|front|, last) {
          FileNameInjective(i, us[i], |front|, last);
        }
      }
    }
  }

  lemma NamesDistinct(us: seq<DataUnit>)
    ensures Listing.Distinct(FileNames(us))
  {
    forall i, j | 0 <= i < j < |us| ensures FileName(i, us[i]) != FileName(j, us[j]) {
      if FileName(i, us[i]) == FileName(j, us[j]) {
        FileNameInjective(i, us[i], j, us[j]);
      }
    }
  }

  const MOST := 1_000_000

  /** Below a million the names of two files compare as their numbers do. */
  lemma NumberOrder(i: nat, u: DataUnit, j: nat, v: DataUnit)
    requires i < MOST && j < MOST
    ensures Text.Before(FileName(i, u), FileName(j, v)) <==> i < j || (i == j && Text.Before(Suffix(u), Suffix(v)))
  {
    var a, b := Text.Padded(i, NUMBER_WIDTH), Text.Padded(j, NUMBER_WIDTH);
    SixDigits(i);
    SixDigits(j);
    Text.ParsePadded(i, NUMBER_WIDTH);
    Text.ParsePadded(j, NUMBER_WIDTH);
    Text.NumeralOrder(a, b);
    if i == j {
      SamePrefix(a, Suffix(u), Suffix(v));
    } else {
      Text.PrefixDecides(a, Suffix(u), b, Suffix(v));
    }
  }

  lemma {:induction false} SamePrefix(p: string, x: string, y: string)
    ensures Text.Before(p + x, p + y) <==> Text.Before(x, y)
  {
    if p == [] {
      assert p + x == x && p + y == y;
    } else {
      assert (p + x)[1..] == p[1..] + x && (p + y)[1..] == p[1..] + y;
      SamePrefix(p[1..], x, y);
    }
  }

  lemma SixDigits(i: nat)
    ensures |Text.Padded(i, NUMBER_WIDTH)| == NUMBER_WIDTH <==> i < MOST
  {
    Text.DecimalLength(i, NUMBER_WIDTH);
    assert Text.Pow10(6) == MOST by {
      assert Text.Pow10(3) == 1000;
      assert Text.Pow10(5) == 100_000;
    }
  }

  /** The millionth file and its successor are in the wrong order. */
  lemma PastTheLimit(u: DataUnit, v: DataUnit)
    ensures Text.Before(FileName(1_000_000, v), FileName(999_999, u))
  {
    SixDigits(999_999);
    SixDigits(1_000_000);
    var a, b := Text.Padded(999_999, NUMBER_WIDTH), Text.Padded(1_000_000, NUMBER_WIDTH);
    FirstDigit(1_000_000);
    FirstDigit(100_000);
    FirstDigit(10_000);
    FirstDigit(1000);
    FirstDigit(100);
    FirstDigit(10);
    FirstDigit(999_999);
    FirstDigit(99_999);
    FirstDigit(9999);
    FirstDigit(999);
    FirstDigit(99);
    assert FileName(1_000_000, v)[0] == b[0] == '1' && FileName(999_999, u)[0] == a[0] == '9';
  }

  lemma FirstDigit(n: nat)
    requires n >= 10
    ensures Text.Decimal(n)[0] == Text.Decimal(n / 10)[0]
  {
  }

  /** The names are in creation order exactly up to a million files, whatever their suffixes. */
  lemma InOrderExactly(us: seq<DataUnit>)
    ensures Listing.SortedBy(FileNames(us), Text.NotAfter) <==> |us| <= MOST
  {
    var ns := FileNames(us);
    if |us| <= MOST {
      forall i, j | 0 <= i < j < |ns| ensures Text.NotAfter(ns[i], ns[j]) {
        NumberOrder(i, us[i], j, us[j]);
      }
    } else {
      PastTheLimit(us[999_999], us[1_000_000]);
      Text.BeforeIsStrict(ns[1_000_000], ns[999_999]);
      assert !Text.NotAfter(ns[999_999], ns[1_000_000]);
    }
  }

  lemma NamesAreOrdered(ns: seq<string>)
    ensures Listing.Orders(Text.NotAfter, ns) && Listing.Antisymmetric(Text.NotAfter, ns)
  {
    forall x, y | x in ns && y in ns ensures Text.NotAfter(x, y) || Text.NotAfter(y, x) {
      Text.BeforeIsTotal(x, y);
    }
    forall x, y, z | x in ns && y in ns && z in ns && Text.NotAfter(x, y) && Text.NotAfter(y, z) ensures Text.NotAfter(x, z) {
      if x != y && y != z {
        Text.BeforeIsTransitive(x, y, z);
      }
    }
    forall i, j | 0 <= i < |ns| && 0 <= j < |ns| && Text.NotAfter(ns[i], ns[j]) && Text.NotAfter(ns[j], ns[i]) ensures ns[i] == ns[j] {
      Text.BeforeIsStrict(ns[i], ns[j]);
    }
  }

  /** What is read from the files, one after the other. */
  function Replayed(json: Json, files: map<string, Bytes>, names: seq<string>): seq<DataUnit>
    requires forall n | n in names :: n in files
  {
    if names == [] then []
    else Replayed(json, files, names[..|names| - 1]) + [FromFile(names[|names| - 1], json.read(files[names[|names| - 1]]))]
  }

  lemma {:induction false} ReplaySaved(json: Json, files: map<string, Bytes>, us: seq<DataUnit>)
    requires Reads(json)
    requires forall i | 0 <= i < |us| :: FileName(i, us[i]) in files && files[FileName(i, us[i])] == json.write(us[i])
    ensures forall n | n in FileNames(us) :: n in files
    ensures Replayed(json, files, FileNames(us)) == us
  {
    hide FileName, FromFile;
    if us != [] {
      var front, last := us[..|us| - 1], us[|us| - 1];
      ReplaySaved(json, files, front);
      assert FileNames(us)[..|us| - 1] == FileNames(front);
      FromFileRestores(|us| - 1, last);
    }
  }

  /** Sorting any listing of the saved files and reading them replays the changes in the
      order in which they were saved. */
  lemma ReplayedInOrder(json: Json, us: seq<DataUnit>, listing: seq<string>)
    requires Reads(json) && |us| <= MOST
    requires Listing.Distinct(listing) && forall n :: n in listing <==> n in Saved(json, us)
    ensures var sorted := Listing.Sort(listing, Text.NotAfter);
            && (forall n | n in sorted :: n in Saved(json, us))
            && Replayed(json, Saved(json, us), sorted) == us
  {
    SavedExact(json, us);
    NamesDistinct(us);
    Listing.SameSet(listing, FileNames(us));
    NamesAreOrdered(FileNames(us));
    InOrderExactly(us);
    Listing.SortRestores(listing, FileNames(us), Text.NotAfter);
    ReplaySaved(json, Saved(json, us), us);
  }
}
