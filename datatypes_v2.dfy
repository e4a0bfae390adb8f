/**
 * v2/dataTypesUtils.go: the type resolver of the second generation of the
 * generator, which maps a PostgreSQL catalog type name to a Go base type,
 * a nullable wrapper type and an import, plus the catalog decoders and
 * the renderers of nullable-wrapper snippets.
 */
module DataTypesV2 {
  import opened Text
  import opened Sql
  import Identifiers

  const NullableTypeBool := "pgtype.Bool"
  const NullableTypeFloat32 := "pgtype.Float4"
  const NullableTypeFloat64 := "pgtype.Float8"
  const NullableTypeInt16 := "pgtype.Int2"
  const NullableTypeInt32 := "pgtype.Int4"
  const NullableTypeInt64 := "pgtype.Int8"
  const NullableTypeInterval := "pgtype.Interval"
  const NullableTypeJson := "JSON"
  const NullableTypeJsonb := "JSONB"
  const NullableTypeNumeric := "Numeric"
  const NullableTypeString := "pgtype.Text"
  const NullableTypeText := "pgtype.Text"
  const NullableTypeVarchar := "pgtype.Varchar"
  const NullableTypeUuid := "pgtype.UUID"
  const NullableTypeTimestampTz := "pgtype.Timestamptz"
  const NullableTypeTimestamp := "pgtype.Timestamp"
  const NullableTypeDate := "pgtype.Date"

  /** What the resolver returns: base type, nullable wrapper, import (each "" when absent). */
  datatype Resolution = Resolution(goType: string, nullableType: string, goImport: string)

  /** The catalog type names the resolver knows, apart from the `ARRAY` marker. */
  const KnownTypes: set<string> := {
    "boolean", "character varying", "text", "character", "character[]",
    "double precision", "int2", "smallint", "int4", "int32", "integer", "serial",
    "interval", "json", "jsonb", "numeric", "uuid", "int8", "bigint", "bigserial", "int64",
    "timestamp with time zone", "timestamp without time zone",
    "time with time zone", "time without time zone", "date"
  }

  /** The five date and time types, which need the `time` import. */
  const TimeTypes: set<string> := {
    "timestamp with time zone", "timestamp without time zone",
    "time with time zone", "time without time zone", "date"
  }

  /** A type the resolver can map: a known name, or a one-dimensional `character` array. */
  predicate Resolvable(columnType: string, udtName: string) {
    columnType in KnownTypes || (columnType == "ARRAY" && udtName == "_bpchar")
  }

  function Wrap(nullable: bool, wrapper: string): string {
    if nullable then wrapper else ""
  }

  /**
   * GetGoTypeForColumn. An unknown type, or an array of anything but
   * `character`, resolves to three empty strings; a non-nullable column
   * never gets a wrapper; the `time` import comes exactly with `time.Time`.
   */
  function GetGoTypeForColumn(columnType: string, nullable: bool, udtName: string): (r: Resolution)
    ensures r.goType != "" <==> Resolvable(columnType, udtName)
    ensures r.goType == "" ==> r == Resolution("", "", "")
    ensures !nullable ==> r.nullableType == ""
    ensures nullable && r.goType != "" ==> r.nullableType != ""
  {
    match columnType
    case "ARRAY" =>
      if udtName == "_bpchar" then Resolution("string", Wrap(nullable, NullableTypeString), "")
      else Resolution("", "", "")
    case "boolean" =>
      Resolution("bool", Wrap(nullable, NullableTypeBool), "")
    case "character varying" | "text" | "character" | "character[]" =>
      Resolution("string", Wrap(nullable, NullableTypeString), "")
    case "double precision" =>
      Resolution("float64", Wrap(nullable, NullableTypeFloat64), "")
    case "int2" | "smallint" =>
      Resolution("int16", Wrap(nullable, NullableTypeInt16), "")
    case "int4" | "int32" | "integer" | "serial" =>
      Resolution("int32", Wrap(nullable, NullableTypeInt32), "")
    case "interval" =>
      Resolution(NullableTypeInterval, Wrap(nullable, NullableTypeInterval), "")
    case "json" =>
      Resolution("string", Wrap(nullable, NullableTypeJson), "")
    case "jsonb" =>
      Resolution("string", Wrap(nullable, NullableTypeJsonb), "")
    case "numeric" =>
      Resolution(NullableTypeNumeric, Wrap(nullable, NullableTypeNumeric), "")
    case "uuid" =>
      Resolution("string", Wrap(nullable, NullableTypeUuid), "")
    case "int8" | "bigint" | "bigserial" | "int64" =>
      Resolution("int64", Wrap(nullable, NullableTypeInt64), "")
    case "timestamp with time zone" =>
      Resolution("time.Time", Wrap(nullable, NullableTypeTimestampTz), "time")
    case "timestamp without time zone" =>
      Resolution("time.Time", Wrap(nullable, NullableTypeTimestamp), "time")
    case "time with time zone" =>
      Resolution("time.Time", Wrap(nullable, NullableTypeTimestampTz), "time")
    case "time without time zone" =>
      Resolution("time.Time", Wrap(nullable, NullableTypeTimestamp), "time")
    case "date" =>
      Resolution("time.Time", Wrap(nullable, NullableTypeDate), "time")
    case _ =>
      Resolution("", "", "")
  }

  /** The `time` import comes exactly with `time.Time`, which exactly the date and time types get. */
  lemma TimeImportFollowsTimeType(columnType: string, nullable: bool, udtName: string)
    ensures var r := GetGoTypeForColumn(columnType, nullable, udtName);
      && r.goImport == (if r.goType == "time.Time" then "time" else "")
      && (r.goType == "time.Time" <==> columnType in TimeTypes)
  {
    match columnType
    case "ARRAY" =>
    case "boolean" =>
    case "character varying" | "text" | "character" | "character[]" =>
    case "double precision" =>
    case "int2" | "smallint" =>
    case "int4" | "int32" | "integer" | "serial" =>
    case "interval" =>
    case "json" =>
    case "jsonb" =>
    case "numeric" =>
    case "uuid" =>
    case "int8" | "bigint" | "bigserial" | "int64" =>
    case "timestamp with time zone" =>
    case "timestamp without time zone" =>
    case "time with time zone" =>
    case "time without time zone" =>
    case "date" =>
    case _ =>
  }

  /** Nullability decides the wrapper and nothing else. */
  lemma NullabilityOnlyAddsWrapper(columnType: string, udtName: string)
    ensures GetGoTypeForColumn(columnType, false, udtName)
         == GetGoTypeForColumn(columnType, true, udtName).(nullableType := "")
  {
  }

  /**
   * GetGoTypeNullableType, as written: the inverse lookup from a base type
   * to its wrapper. It lists the catalog names "int2"/"smallint" but not the
   * base type "int16" that the resolver gives them.
   */
  function GetGoTypeNullableType(goType: string): (w: string)
    ensures goType == "int16" ==> w == ""
  {
    match goType
    case "bool" => NullableTypeBool
    case "float32" => NullableTypeFloat32
    case "float64" => NullableTypeFloat64
    case "int2" | "smallint" => NullableTypeInt16
    case "int4" | "int32" | "integer" | "serial" => NullableTypeInt32
    case "int8" | "int64" | "bigserial" | "bigint" => NullableTypeInt64
    case "Numeric" => NullableTypeNumeric
    case "JSONString" => NullableTypeJson
    case "JSONBString" => NullableTypeJsonb
    case "string" => NullableTypeString
    case "time.Time" => NullableTypeTimestampTz
    case _ => ""
  }

  /** The inverse lookup loses the wrapper of a nullable `smallint` column. */
  lemma InverseLookupMissesInt16()
    ensures GetGoTypeForColumn("smallint", true, "") == Resolution("int16", NullableTypeInt16, "")
    ensures GetGoTypeNullableType("int16") == ""
  {
  }

  /** The inverse lookup with the `int16` case it evidently lacks. */
  function GetGoTypeNullableTypeCorrected(goType: string): (w: string)
    ensures goType != "int16" ==> w == GetGoTypeNullableType(goType)
  {
    if goType == "int16" then NullableTypeInt16 else GetGoTypeNullableType(goType)
  }

  /** The base types whose wrapper does not depend on which catalog type produced them. */
  const NativeBaseTypes: set<string> := {"bool", "float64", "int16", "int32", "int64", "Numeric"}

  /**
   * With the correction, the inverse lookup gives back the wrapper the
   * resolver chose, for every catalog type that resolves to a native base
   * type and for every plain character type.
   */
  lemma CorrectedLookupInvertsResolver(columnType: string, udtName: string)
    ensures var r := GetGoTypeForColumn(columnType, true, udtName);
      (r.goType in NativeBaseTypes ||
       columnType in {"character varying", "text", "character", "character[]"} ||
       (columnType == "ARRAY" && udtName == "_bpchar"))
      ==> GetGoTypeNullableTypeCorrected(r.goType) == r.nullableType
  {
    match columnType
    case "ARRAY" =>
    case "boolean" =>
    case "character varying" | "text" | "character" | "character[]" =>
    case "double precision" =>
    case "int2" | "smallint" =>
    case "int4" | "int32" | "integer" | "serial" =>
    case "interval" =>
    case "json" =>
    case "jsonb" =>
    case "numeric" =>
    case "uuid" =>
    case "int8" | "bigint" | "bigserial" | "int64" =>
    case "timestamp with time zone" =>
    case "timestamp without time zone" =>
    case "time with time zone" =>
    case "time without time zone" =>
    case "date" =>
    case _ =>
  }

  /**
   * GetGoInsertNameForColumn: only the custom `Numeric` wrapper needs its
   * embedded pgx value at insert time; every other name is returned as is.
   */
  function GetGoInsertNameForColumn(currentGoName: string, resolvedGoType: string): (r: string)
    ensures HasPrefix(r, currentGoName)
    ensures r != currentGoName <==> resolvedGoType == NullableTypeNumeric
    ensures resolvedGoType == NullableTypeNumeric ==> r[|currentGoName|..] == ".EmbeddedVal()"
  {
    if resolvedGoType == NullableTypeNumeric then currentGoName + ".EmbeddedVal()" else currentGoName
  }

  /** The wrappers the snippet renderers know. */
  const RenderableWrappers: set<string> := {
    NullableTypeBool, NullableTypeFloat32, NullableTypeFloat64, NullableTypeNumeric,
    NullableTypeInt16, NullableTypeInt32, NullableTypeInt64, NullableTypeJson, NullableTypeJsonb,
    NullableTypeText, NullableTypeVarchar, NullableTypeTimestampTz, NullableTypeTimestamp,
    NullableTypeDate
  }

  function Diagnostic(function_: string, goNullableType: string): string {
    "[" + function_ + ": could not find the go nullable type: '" + goNullableType + "']"
  }

  function StatusFromBool(statusField: string): string {
    ", Status: statusFromBool(" + statusField + ")}"
  }

  /**
   * GenerateNullableTypeStructTemplate: the Go expression that builds a
   * nullable wrapper from a value field and a presence flag. A known
   * wrapper yields Go code (a `&pgtype…` literal or a `to…Numeric` call),
   * an unknown one a bracketed diagnostic naming it.
   */
  function GenerateNullableTypeStructTemplate(goNullableType: string, valueField: string,
                                              statusField: string, forInsert: bool): (r: string)
    ensures goNullableType !in RenderableWrappers ==>
      r == Diagnostic("GenerateNullableTypeStructTemplate", goNullableType)
    ensures goNullableType in RenderableWrappers ==> r != [] && r[0] in {'&', 't'}
  {
    if goNullableType == NullableTypeBool then
      "&pgtype.Bool{Bool: " + valueField + StatusFromBool(statusField)
    else if goNullableType == NullableTypeFloat32 then
      "&pgtype.Float4{Float: " + valueField + StatusFromBool(statusField)
    else if goNullableType == NullableTypeFloat64 then
      "&pgtype.Float8{Float: " + valueField + StatusFromBool(statusField)
    else if goNullableType == NullableTypeNumeric then
      if forInsert then "toPgxNumeric(" + valueField + ", " + statusField + ")"
      else "toNumeric(" + valueField + ", " + statusField + ")"
    else if goNullableType == NullableTypeInt16 then
      "&pgtype.Int2{Int: " + valueField + StatusFromBool(statusField)
    else if goNullableType == NullableTypeInt32 then
      "&pgtype.Int4{Int: " + valueField + StatusFromBool(statusField)
    else if goNullableType == NullableTypeInt64 then
      "&pgtype.Int8{Int: " + valueField + StatusFromBool(statusField)
    else if goNullableType == NullableTypeJson then
      "&pgtype.JSON{Bytes: []byte(" + valueField + ")" + StatusFromBool(statusField)
    else if goNullableType == NullableTypeJsonb then
      "&pgtype.JSONB{Bytes: []byte(" + valueField + ")" + StatusFromBool(statusField)
    else if goNullableType == NullableTypeText then
      "&pgtype.Text{String: " + valueField + StatusFromBool(statusField)
    else if goNullableType == NullableTypeVarchar then
      "&pgtype.Varchar{String: " + valueField + StatusFromBool(statusField)
    else if goNullableType == NullableTypeTimestampTz then
      "&pgtype.Timestamptz{Time: " + valueField + StatusFromBool(statusField)
    else if goNullableType == NullableTypeTimestamp then
      "&pgtype.Timestamp{Time: utcTime(" + valueField + ")" + StatusFromBool(statusField)
    else if goNullableType == NullableTypeDate then
      "&pgtype.Date{Time: " + valueField + StatusFromBool(statusField)
    else
      Diagnostic("GenerateNullableTypeStructTemplate", goNullableType)
  }

  /** `forInsert` matters for the custom `Numeric` wrapper only. */
  lemma ForInsertOnlyAffectsNumeric(goNullableType: string, valueField: string, statusField: string)
    ensures goNullableType != NullableTypeNumeric ==>
      GenerateNullableTypeStructTemplate(goNullableType, valueField, statusField, true)
      == GenerateNullableTypeStructTemplate(goNullableType, valueField, statusField, false)
    ensures GenerateNullableTypeStructTemplate(NullableTypeNumeric, valueField, statusField, true)
      != GenerateNullableTypeStructTemplate(NullableTypeNumeric, valueField, statusField, false)
  {
    var t := GenerateNullableTypeStructTemplate(NullableTypeNumeric, valueField, statusField, true);
    var f := GenerateNullableTypeStructTemplate(NullableTypeNumeric, valueField, statusField, false);
    assert t[2] != f[2];
  }

  /**
   * GetNullableTypeValueFieldName: the member that holds a wrapper's value
   * for a known wrapper; an unknown wrapper yields a bracketed diagnostic
   * naming it.
   */
  function GetNullableTypeValueFieldName(goNullableType: string): (r: string)
    ensures goNullableType !in RenderableWrappers ==>
      r == Diagnostic("GetNullableTypeValueFieldName", goNullableType)
    ensures goNullableType in RenderableWrappers ==> r != [] && r[0] != '['
  {
    if goNullableType == NullableTypeBool then "Bool"
    else if goNullableType == NullableTypeFloat32 then "Float"
    else if goNullableType == NullableTypeFloat64 then "Float"
    else if goNullableType == NullableTypeNumeric then "NumericVal()"
    else if goNullableType == NullableTypeInt16 then "Int"
    else if goNullableType == NullableTypeInt32 then "Int"
    else if goNullableType == NullableTypeInt64 then "Int"
    else if goNullableType == NullableTypeJson then "String()"
    else if goNullableType == NullableTypeJsonb then "String()"
    else if goNullableType == NullableTypeText then "String"
    else if goNullableType == NullableTypeVarchar then "String"
    else if goNullableType == NullableTypeTimestampTz then "Time"
    else if goNullableType == NullableTypeTimestamp then "Time"
    else if goNullableType == NullableTypeDate then "Time"
    else Diagnostic("GetNullableTypeValueFieldName", goNullableType)
  }

  /**
   * Every type the resolver maps has a wrapper both renderers render,
   * except `uuid` and `interval`: a nullable column of either gets the
   * renderers' diagnostic instead of a snippet.
   */
  lemma RenderersCoverResolver(columnType: string, udtName: string, valueField: string, statusField: string, forInsert: bool)
    requires Resolvable(columnType, udtName)
    ensures var w := GetGoTypeForColumn(columnType, true, udtName).nullableType;
      && (GenerateNullableTypeStructTemplate(w, valueField, statusField, forInsert)
            != Diagnostic("GenerateNullableTypeStructTemplate", w)
          <==> columnType !in {"uuid", "interval"})
      && (GetNullableTypeValueFieldName(w) != Diagnostic("GetNullableTypeValueFieldName", w)
          <==> columnType !in {"uuid", "interval"})
  {
    var w := GetGoTypeForColumn(columnType, true, udtName).nullableType;
    assert w in RenderableWrappers <==> columnType !in {"uuid", "interval"};
  }

  /**
   * GetGoFriendlyNameForColumn: v2/dataTypesUtils.go keeps its own copy of the name
   * conversion; it is the shared Identifiers.SnakeToGo.
   */
  function GetGoFriendlyNameForColumn(columnName: string): (r: string)
    ensures r == Identifiers.SnakeToGo(columnName)
    ensures '_' !in r
    ensures Lower(r) == Lower(Remove(columnName, '_'))
  {
    Identifiers.FriendlyNameFacts(columnName);
    if '_' !in columnName then Title(columnName)
    else Join(Identifiers.TitleEach(Split(columnName, '_')), "")
  }

  // The catalog decoders below are v2/dataTypesUtils.go's own copies; each generation
  // of the source defines them again, with its own accepted spellings.
  /** DecodeIsColumnSequence: a default that is not NULL and calls `nextval(`. */
  function DecodeIsColumnSequence(columnDefaultValue: PgText): (r: bool)
    ensures r <==> (columnDefaultValue.status != Null &&
                    |columnDefaultValue.value| >= 8 && columnDefaultValue.value[..8] == "nextval(")
  {
    if columnDefaultValue.status == Null then false
    else HasPrefix(columnDefaultValue.value, "nextval(")
  }

  /** The spellings DecodeNullable reads as "nullable". */
  const NullableSpellings: set<string> := {"YES", "Yes", "yes", "y", "Y", "t", "T", "true", "TRUE", "True"}

  /** DecodeNullable: true for exactly the listed spellings; "NO", "f", "F" and anything else give false. */
  function DecodeNullable(isNullable: string): (r: bool)
    ensures r <==> isNullable in NullableSpellings
  {
    if isNullable == "NO" || isNullable == "f" || isNullable == "F" then false
    else if isNullable == "YES" || isNullable == "Yes" || isNullable == "yes" || isNullable == "y"
         || isNullable == "Y" || isNullable == "t" || isNullable == "T" || isNullable == "true"
         || isNullable == "TRUE" || isNullable == "True" then true
    else false
  }

  /** DecodeMaxLength: -1 stands for a NULL length; otherwise the stored value. */
  function DecodeMaxLength(maxLength: PgInt4): (r: int)
    ensures maxLength.status == Null ==> r == -1
    ensures maxLength.status != Null ==> r == maxLength.value
  {
    if maxLength.status == Null then -1 else maxLength.value
  }
}
