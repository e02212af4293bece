/**
 * DbTypeResolver of NI.Data: maps a .NET runtime type (or a value's runtime
 * type) to a System.Data.DbType member. One setting, UseAnsiString, decides
 * how `string` maps; every type outside the thirteen it knows maps to Object.
 */
module DbTypes {

  /** The runtime types the resolver tests for, and every other type. */
  datatype ClrType =
    | ByteType | BooleanType | Int64Type | Int32Type | DoubleType | SingleType
    | StringType | ByteArrayType | DateTimeType | GuidType | DecimalType
    | TimeSpanType | DateTimeOffsetType
    | OtherType(fullName: string)

  /** The System.Data.DbType members the resolver can return. */
  datatype DbType =
    | Byte | Boolean | Int64 | Int32 | Double | Single | AnsiString | String
    | Binary | DateTime | Guid | Decimal | Time | DateTimeOffset | Object

  /** A value passed to Resolve(object): null, or an instance of some runtime type. */
  datatype Value = Null | Instance(runtimeType: ClrType)

  /** The thirteen types with a mapping of their own. */
  predicate IsListed(t: ClrType)
  {
    !t.OtherType?
  }

  /**
   * Resolve(Type): one test per listed type, in the source's order, the first
   * that matches deciding; `string` maps to AnsiString exactly when
   * useAnsiString is set, to String otherwise; anything else to Object.
   */
  function ResolveType(useAnsiString: bool, t: ClrType): (r: DbType)
    ensures r == Object <==> !IsListed(t)
    ensures t == StringType ==> (r == AnsiString <==> useAnsiString) && (r == String <==> !useAnsiString)
    ensures r == AnsiString || r == String ==> t == StringType
  {
    if t == ByteType then Byte
    else if t == BooleanType then Boolean
    else if t == Int64Type then Int64
    else if t == Int32Type then Int32
    else if t == DoubleType then Double
    else if t == SingleType then Single
    else if t == StringType then (if useAnsiString then AnsiString else String)
    else if t == ByteArrayType then Binary
    else if t == DateTimeType then DateTime
    else if t == GuidType then Guid
    else if t == DecimalType then Decimal
    else if t == TimeSpanType then Time
    else if t == DateTimeOffsetType then DateTimeOffset
    else Object
  }

  /** For every type other than `string`, the setting makes no difference. */
  lemma SettingOnlyAffectsString(t: ClrType)
    requires t != StringType
    ensures ResolveType(true, t) == ResolveType(false, t)
  {
  }

  /** Distinct listed types map to distinct DbTypes (under either setting). */
  lemma ListedTypesMapInjectively(useAnsiString: bool, t1: ClrType, t2: ClrType)
    requires IsListed(t1) && IsListed(t2) && t1 != t2
    ensures ResolveType(useAnsiString, t1) != ResolveType(useAnsiString, t2)
  {
  }

  class DbTypeResolver {
    var useAnsiString: bool

    /** `new DbTypeResolver()`: UseAnsiString starts false. */
    constructor ()
      ensures !useAnsiString
    {
      useAnsiString := false;
    }

    /** Resolve(Type) under this resolver's current setting. */
    function Resolve(t: ClrType): (r: DbType)
      reads this
      ensures r == ResolveType(useAnsiString, t)
    {
      ResolveType(useAnsiString, t)
    }

    /** Resolve(object): Object for null, otherwise exactly what the value's runtime type resolves to. */
    function ResolveValue(v: Value): (r: DbType)
      reads this
      ensures v.Null? ==> r == Object
      ensures v.Instance? ==> r == Resolve(v.runtimeType)
    {
      match v
      case Null => Object
      case Instance(t) => Resolve(t)
    }
  }

  /** A freshly constructed resolver maps `string` to String. */
  method DefaultResolverMapsStringToString() returns (r: DbType)
    ensures r == String
  {
    var resolver := new DbTypeResolver();
    r := resolver.Resolve(StringType);
  }
}
