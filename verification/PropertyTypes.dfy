/** Property types, the column types they deploy to, and the comparison of a
    property with the column found in the database (ModelDeployer's type helpers). */
module PropertyTypes {
  import opened Wrappers

  datatype Kind =
    | STRING | TEXT | HTML | URL | IMAGE | FILE | INT | REAL | DECIMAL | DATETIME | BOOLEAN
    | PASSWORD | GUID | REFERENCE | COLLECTION | SET | STRUCT | CUSTOM | USER | PERIOD | GEO | FILESLIST

  /** MetaPropertyType.getValue. */
  function Code(k: Kind): int {
    match k
    case STRING => 0
    case TEXT => 1
    case HTML => 2
    case URL => 3
    case IMAGE => 4
    case FILE => 5
    case INT => 6
    case REAL => 7
    case DECIMAL => 8
    case DATETIME => 9
    case BOOLEAN => 10
    case PASSWORD => 11
    case GUID => 12
    case REFERENCE => 13
    case COLLECTION => 14
    case SET => 15
    case STRUCT => 16
    case CUSTOM => 17
    case USER => 18
    case PERIOD => 60
    case GEO => 100
    case FILESLIST => 110
  }

  // The constants of java.sql.Types that the planner looks at.
  const BIT := -7
  const BIGINT := -5
  const LONGVARBINARY := -4
  const LONGVARCHAR := -1
  const CHAR := 1
  const NUMERIC := 2
  const DECIMAL_TYPE := 3
  const INTEGER := 4
  const SMALLINT := 5
  const FLOAT := 6
  const REAL_TYPE := 7
  const DOUBLE := 8
  const VARCHAR := 12
  const DATE := 91
  const TIMESTAMP := 93
  const CLOB := 2005
  const NCLOB := 2011
  const TIMESTAMP_WITH_TIMEZONE := 2014
  const NVARCHAR := -9
  const NCHAR := -15
  const LONGNVARCHAR := -16

  type Short = x: int | -32768 <= x <= 32767

  datatype PropertyMeta = PropertyMeta(
    name: string,
    kind: Kind,
    size: Option<Short>,
    decimals: Option<Short>,
    orderNumber: int,
    indexed: bool,
    unique: bool,
    refClass: string,
    itemsClass: string,
    backRef: string,
    backColl: string)

  /** A type expression of a change, such as varchar(200) or number. */
  datatype ColumnType = ColumnType(name: string, size: Option<int>, digits: Option<int>)

  /** What DatabaseMetaData reports of a column, the name of the type in lower case. */
  datatype ColumnInfo = ColumnInfo(dataType: int, typeName: string, size: int, digits: int)

  predicate IsPrecisioned(t: int) {
    t in {NUMERIC, DECIMAL_TYPE, VARCHAR, CHAR, NCHAR, NVARCHAR}
  }

  predicate IsScaled(t: int) {
    t in {NUMERIC, DECIMAL_TYPE}
  }

  predicate IsCharacter(t: int) {
    t in {VARCHAR, NVARCHAR, CHAR, NCHAR}
  }

  /** cmpPropertyJdbcType: the column's type code suits the property. */
  predicate Suits(pm: PropertyMeta, t: int) {
    match pm.kind
    case BOOLEAN => t == BIT
    case DATETIME => t in {DATE, TIMESTAMP, TIMESTAMP_WITH_TIMEZONE}
    case DECIMAL => t in {NUMERIC, DECIMAL_TYPE}
    case INT => if pm.size.None? || pm.size.value > 11 then t == BIGINT else t == INTEGER
    case SET => t == SMALLINT
    case REAL => t in {DOUBLE, REAL_TYPE, FLOAT}
    case GUID | FILE | IMAGE | PASSWORD | STRING | URL => IsCharacter(t)
    case HTML | TEXT => t in {CLOB, LONGVARCHAR, LONGNVARCHAR, NCLOB, LONGVARBINARY}
    case _ => false
  }

  /** The types with a case of their own in the type helpers. */
  predicate HasOwnCase(k: Kind) {
    k in {BOOLEAN, DATETIME, DECIMAL, INT, SET, REAL, GUID, FILE, IMAGE, PASSWORD, STRING, URL, HTML, TEXT}
  }

  function SizeOr(size: Option<Short>, default: Option<int>): Option<int> {
    if size.None? || size.value == 0 then default else Some(size.value)
  }

  /** getColumnSize. The guard reads the property's own code as a java.sql.Types code. */
  function ColumnSize(pm: PropertyMeta, defaultLength: int): Option<int> {
    if IsPrecisioned(Code(pm.kind)) then
      match pm.kind
      case GUID => Some(36)
      case URL | FILE | IMAGE => SizeOr(pm.size, Some(2000))
      case PASSWORD | STRING => SizeOr(pm.size, Some(defaultLength))
      case _ => SizeOr(pm.size, None)
    else None
  }

  /** getColumnType. */
  function DeployedType(pm: PropertyMeta, defaultLength: int): ColumnType {
    var ss := ColumnSize(pm, defaultLength);
    var size := if ss.None? || ss.value == 0 then None else ss;
    var digits := if size.None? then None else Some(if pm.decimals.None? then 0 else pm.decimals.value);
    match pm.kind
    case BOOLEAN => ColumnType("boolean", None, None)
    case DATETIME => ColumnType("datetime", None, None)
    case DECIMAL => ColumnType("number", size, digits)
    case INT => ColumnType(if pm.size.None? || pm.size.value > 11 then "bigint" else "integer", size, None)
    case SET => ColumnType("smallint", None, None)
    case REAL => ColumnType("double", None, None)
    case GUID => ColumnType("char", Some(36), None)
    case URL | FILE | IMAGE => ColumnType("varchar", if size.None? then Some(2000) else size, None)
    case PASSWORD | STRING => ColumnType("varchar", if size.None? then Some(defaultLength) else size, None)
    case HTML | TEXT => ColumnType("text", None, None)
    case _ => ColumnType("char", size, None)
  }

  /** getCastType. */
  function CastType(pm: PropertyMeta): string {
    match pm.kind
    case DATETIME => "datetime"
    case DECIMAL => "decimal"
    case BOOLEAN | INT | SET => "int"
    case REAL => "double"
    case _ => "char"
  }

  /** The type expression of an existing column, as the planner restates it. */
  function CurrentType(info: ColumnInfo): ColumnType {
    if IsPrecisioned(info.dataType) && 0 < info.size < 65535 then
      ColumnType(info.typeName, Some(info.size), if IsScaled(info.dataType) && info.digits > 0 then Some(info.digits) else None)
    else ColumnType(info.typeName, None, None)
  }

  datatype Decision = Keep | Widen | Migrate

  predicate NeedsMigration(pm: PropertyMeta, deployed: PropertyMeta, info: ColumnInfo, defaultLength: int) {
    var ss := ColumnSize(pm, defaultLength);
    || !Suits(deployed, info.dataType)
    || (ss.Some? && IsPrecisioned(info.dataType) && info.size > ss.value)
    || (ss.Some? && deployed.decimals.Some? && IsScaled(info.dataType) && info.size == ss.value && info.digits > deployed.decimals.value)
  }

  predicate NeedsResize(pm: PropertyMeta, deployed: PropertyMeta, info: ColumnInfo, defaultLength: int) {
    var ss := ColumnSize(pm, defaultLength);
    || (pm.kind == DATETIME && info.dataType == DATE)
    || (ss.Some? && IsPrecisioned(info.dataType) && info.size < ss.value)
    || (ss.Some? && deployed.decimals.Some? && IsScaled(info.dataType) && info.size == ss.value && info.digits < deployed.decimals.value)
  }

  /** What happens to an existing column of a class table. */
  function Decide(pm: PropertyMeta, deployed: PropertyMeta, info: ColumnInfo, defaultLength: int): Decision {
    if NeedsMigration(pm, deployed, info, defaultLength) then Migrate
    else if NeedsResize(pm, deployed, info, defaultLength) then Widen
    else Keep
  }

  /** What happens to an existing column of a relation table; here the declared size is used. */
  function DecideRelation(pm: PropertyMeta, info: ColumnInfo): Decision {
    var scaled := pm.size.Some? && pm.decimals.Some? && IsScaled(info.dataType) && info.size == pm.size.value;
    var sized := pm.size.Some? && IsPrecisioned(info.dataType);
    if !Suits(pm, info.dataType) || (sized && info.size > pm.size.value) || (scaled && info.digits > pm.decimals.value) then Migrate
    else if (pm.kind == DATETIME && info.dataType == DATE) || (sized && info.size < pm.size.value)
         || (scaled && info.digits < pm.decimals.value) then Widen
    else Keep
  }

  /** Because of the mixed-up codes only four types ever have a column size. */
  lemma OnlyFourTypesAreSized(pm: PropertyMeta, defaultLength: int)
    ensures ColumnSize(pm, defaultLength).Some? <==>
              pm.kind in {URL, GUID} || (pm.kind in {TEXT, HTML} && pm.size.Some? && pm.size.value != 0)
  {
  }

  /** An in-place change either turns DATE into datetime or enlarges a character column. */
  lemma InPlaceChangesWiden(pm: PropertyMeta, deployed: PropertyMeta, info: ColumnInfo, defaultLength: int)
    requires pm.kind != REFERENCE ==> deployed == pm
    requires Decide(pm, deployed, info, defaultLength) == Widen
    ensures pm.kind in {DATETIME, URL, GUID}
    ensures pm.kind == DATETIME ==>
              info.dataType == DATE && DeployedType(deployed, defaultLength) == ColumnType("datetime", None, None)
    ensures pm.kind != DATETIME ==>
              var t := DeployedType(deployed, defaultLength);
              IsCharacter(info.dataType) && t.name in {"char", "varchar"} && t.size.Some? && info.size < t.size.value
  {
  }

  /** How the target database reports a column created with a type expression. */
  type Realise = ColumnType -> ColumnInfo

  /** The database reports each emitted type under a code the planner accepts for it. */
  ghost predicate Faithful(realise: Realise) {
    && realise(ColumnType("boolean", None, None)).dataType == BIT
    && realise(ColumnType("datetime", None, None)).dataType in {TIMESTAMP, TIMESTAMP_WITH_TIMEZONE}
    && realise(ColumnType("number", None, None)).dataType in {NUMERIC, DECIMAL_TYPE}
    && realise(ColumnType("bigint", None, None)).dataType == BIGINT
    && realise(ColumnType("integer", None, None)).dataType == INTEGER
    && realise(ColumnType("smallint", None, None)).dataType == SMALLINT
    && realise(ColumnType("double", None, None)).dataType in {DOUBLE, REAL_TYPE, FLOAT}
    && realise(ColumnType("text", None, None)).dataType in {CLOB, LONGVARCHAR, LONGNVARCHAR, NCLOB, LONGVARBINARY}
    && (var c := realise(ColumnType("char", Some(36), None)); c.dataType in {CHAR, NCHAR} && c.size == 36)
    && forall n :: var c := realise(ColumnType("varchar", Some(n), None)); c.dataType in {VARCHAR, NVARCHAR} && c.size == n
  }

  /** A column created, or changed in place, for a property is left alone by the next plan. */
  lemma DeployedColumnIsKept(pm: PropertyMeta, deployed: PropertyMeta, realise: Realise, defaultLength: int)
    requires Faithful(realise)
    requires HasOwnCase(deployed.kind) && (pm.kind == REFERENCE || deployed == pm)
    ensures Decide(pm, deployed, realise(DeployedType(deployed, defaultLength)), defaultLength) == Keep
  {
  }

  /** Exactly when the planner leaves its own column alone: the reported code suits the
      property, DATE is not reported for a DATETIME, and the reported size is the wanted one. */
  lemma KeptExactly(pm: PropertyMeta, info: ColumnInfo, defaultLength: int)
    ensures Decide(pm, pm, info, defaultLength) == Keep <==>
              && Suits(pm, info.dataType)
              && !(pm.kind == DATETIME && info.dataType == DATE)
              && (pm.kind == URL ==> info.size == ColumnSize(pm, defaultLength).value)
              && (pm.kind == GUID ==> info.size == 36)
  {
  }

  /** The type each property gets. The declared length of a STRING, FILE or IMAGE and the precision of a
      DECIMAL are not looked at; only a URL keeps its length. */
  lemma TypesExactly(pm: PropertyMeta, defaultLength: int)
    requires HasOwnCase(pm.kind)
    ensures var t := DeployedType(pm, defaultLength);
            && (pm.kind in {STRING, PASSWORD} ==> t == ColumnType("varchar", Some(defaultLength), None))
            && (pm.kind in {FILE, IMAGE} ==> t == ColumnType("varchar", Some(2000), None))
            && (pm.kind == URL && (pm.size.None? || pm.size.value == 0) ==> t == ColumnType("varchar", Some(2000), None))
            && (pm.kind == URL && pm.size.Some? && pm.size.value != 0 ==> t == ColumnType("varchar", Some(pm.size.value), None))
            && (pm.kind == GUID ==> t == ColumnType("char", Some(36), None))
            && (pm.kind == INT ==> t == ColumnType(if pm.size.Some? && pm.size.value <= 11 then "integer" else "bigint", None, None))
            && (t.size.None? || pm.kind in {STRING, PASSWORD, FILE, IMAGE, URL, GUID})
            && t.digits.None?
  {
  }

  /** The types whose columns are told apart: a column of one group suits no property of another. */
  function Group(pm: PropertyMeta): nat
    requires HasOwnCase(pm.kind)
  {
    match pm.kind
    case BOOLEAN => 0
    case DATETIME => 1
    case DECIMAL => 2
    case INT => if pm.size.Some? && pm.size.value <= 11 then 3 else 4
    case SET => 5
    case REAL => 6
    case TEXT | HTML => 7
    case _ => 8
  }

  /** What becomes of the column made for q once the property is declared as p: another group migrates;
      within a group only URL and GUID compare lengths, a longer column migrates and a shorter one
      is enlarged in place. */
  lemma TypeChange(p: PropertyMeta, q: PropertyMeta, realise: Realise, defaultLength: int)
    requires Faithful(realise) && HasOwnCase(p.kind) && HasOwnCase(q.kind)
    ensures var d, was, wanted := Decide(p, p, realise(DeployedType(q, defaultLength)), defaultLength),
                                  DeployedType(q, defaultLength).size, DeployedType(p, defaultLength).size;
            if Group(p) != Group(q) then d == Migrate
            else if p.kind == URL || p.kind == GUID then
              && was.Some? && wanted.Some?
              && (d == Migrate <==> was.value > wanted.value) && (d == Widen <==> was.value < wanted.value)
            else d == Keep
  {
    hide Faithful;
    var info := realise(DeployedType(q, defaultLength));
    ReportedAs(q, realise, defaultLength);
    TypesExactly(p, defaultLength);
    TypesExactly(q, defaultLength);
  }

  /** How a faithful database reports the column made for a property. */
  lemma ReportedAs(q: PropertyMeta, realise: Realise, defaultLength: int)
    requires Faithful(realise) && HasOwnCase(q.kind)
    ensures var t := DeployedType(q, defaultLength);
            var info := realise(t);
            && Suits(q, info.dataType) && info.dataType != DATE
            && (Group(q) == 8 ==> t.size.Some? && info.size == t.size.value)
  {
  }

  /** A reference follows the type of the key it is stored as, and is never changed in place. */
  lemma ReferenceDecision(pm: PropertyMeta, key: PropertyMeta, info: ColumnInfo, defaultLength: int)
    requires pm.kind == REFERENCE
    ensures Decide(pm, key, info, defaultLength) == if Suits(key, info.dataType) then Keep else Migrate
  {
  }

  /** The size declared for the key, if any, is the one its columns are made with. */
  predicate SizeHolds(key: PropertyMeta, defaultLength: int) {
    || key.size.None?
    || key.kind !in {STRING, PASSWORD, FILE, IMAGE, URL, GUID}
    || key.size.value == (match key.kind
                          case STRING | PASSWORD => defaultLength
                          case GUID => 36
                          case URL => if key.size.value == 0 then 2000 else key.size.value
                          case _ => 2000)
  }

  /** The side of a relation table made for a key is left alone by the next plan exactly if the declared
      size of the key is the one the column has: here the size counts, there it does not. */
  lemma SideSettlesExactly(key: PropertyMeta, realise: Realise, defaultLength: int)
    requires Faithful(realise) && HasOwnCase(key.kind) && key.kind != DECIMAL
    ensures DecideRelation(key, realise(DeployedType(key, defaultLength))) == Keep <==> SizeHolds(key, defaultLength)
    ensures DecideRelation(key, realise(DeployedType(key, defaultLength))) == Widen ==>
              DeployedType(key, defaultLength).size.Some? && DeployedType(key, defaultLength).size.value < key.size.value
  {
    hide Faithful;
    ReportedAs(key, realise, defaultLength);
    TypesExactly(key, defaultLength);
  }

  /** A side is made anew exactly if its type does not suit the key or it is larger than declared. */
  lemma SideMigratesExactly(key: PropertyMeta, info: ColumnInfo)
    ensures DecideRelation(key, info) == Migrate <==>
              || !Suits(key, info.dataType)
              || (IsPrecisioned(info.dataType) && key.size.Some? &&
                  (info.size > key.size.value
                   || (info.size == key.size.value && IsScaled(info.dataType) && key.decimals.Some? && info.digits > key.decimals.value)))
  {
  }

  /** The type helpers as the planner uses them. */
  datatype TypeRules = TypeRules(
    decide: (PropertyMeta, PropertyMeta, ColumnInfo) -> Decision,
    decideRelation: (PropertyMeta, ColumnInfo) -> Decision,
    deployedType: PropertyMeta -> ColumnType,
    currentType: ColumnInfo -> ColumnType,
    cast: (PropertyMeta, PropertyMeta, int) -> Option<string>)

  /** castExpression: no cast when the old type code suits the property. */
  function CastFor(pm: PropertyMeta, deployed: PropertyMeta, oldType: int): Option<string> {
    if Suits(pm, oldType) then None else Some(CastType(deployed))
  }

  /** The cast goes by the group of the type that is stored, and is left out where the old type suits. */
  lemma CastsExactly(pm: PropertyMeta, deployed: PropertyMeta, oldType: int)
    requires HasOwnCase(deployed.kind)
    ensures CastFor(pm, deployed, oldType) ==
              if Suits(pm, oldType) then None
              else Some(["int", "datetime", "decimal", "int", "int", "int", "double", "char", "char"][Group(deployed)])
  {
  }

  /** A character or numeric column is restated with its length, a numeric one with a positive scale,
      and any other by the name of its type. */
  lemma RestatedType(info: ColumnInfo)
    ensures var t := CurrentType(info);
            && t.name == info.typeName
            && (t.size.Some? <==> (IsCharacter(info.dataType) || info.dataType in {NUMERIC, DECIMAL_TYPE}) && 0 < info.size <= 65534)
            && (t.size.Some? ==> t.size.value == info.size)
            && (t.digits.Some? <==> t.size.Some? && info.dataType in {NUMERIC, DECIMAL_TYPE} && info.digits > 0)
            && (t.digits.Some? ==> t.digits.value == info.digits)
  {
  }

  function StandardRules(defaultLength: int): TypeRules {
    TypeRules((pm, deployed, info) => Decide(pm, deployed, info, defaultLength), DecideRelation,
              pm => DeployedType(pm, defaultLength), CurrentType, CastFor)
  }
}
