/**
 * column.go: the first generation's name conversion, its six-entry type
 * table and its catalog decoders (over `database/sql` null values).
 */
module Columns {
  import opened Text
  import opened Sql
  import Identifiers

  /** A Go type and the package it needs ("" when none). */
  datatype GoTypeImport = GoTypeImport(goType: string, goImport: string)

  const KnownTypes: set<string> := {
    "character varying", "integer", "boolean", "uuid", "bigint", "timestamp with time zone"
  }

  /**
   * GetGoFriendlyNameForColumn: column.go keeps its own copy of the name
   * conversion; it is the shared Identifiers.SnakeToGo.
   */
  function GetGoFriendlyNameForColumn(columnName: string): (r: string)
    ensures r == Identifiers.SnakeToGo(columnName)
    ensures '_' !in r
    ensures Lower(r) == Lower(Remove(columnName, '_'))
  {
    Identifiers.FriendlyNameFacts(columnName);
    if '_' !in columnName then Title(columnName)
    else Join(Identifiers.TitleEach(Split(columnName, '_')), "")
  }

  /**
   * GetGoTypeForColumn: six known names; only `timestamp with time zone`
   * needs an import; anything else gives two empty strings.
   */
  function GetGoTypeForColumn(columnType: string): (r: GoTypeImport)
    ensures r.goType != "" <==> columnType in KnownTypes
    ensures r.goType == "" ==> r == GoTypeImport("", "")
    ensures r.goImport != "" <==> columnType == "timestamp with time zone"
    ensures r.goImport != "" ==> r == GoTypeImport("time.Time", "time")
  {
    match columnType
    case "character varying" => GoTypeImport("string", "")
    case "integer" => GoTypeImport("int", "")
    case "boolean" => GoTypeImport("bool", "")
    case "uuid" => GoTypeImport("string", "")
    case "bigint" => GoTypeImport("int64", "")
    case "timestamp with time zone" => GoTypeImport("time.Time", "time")
    case _ => GoTypeImport("", "")
  }

  /** The entries of the table. */
  lemma KnownMappings()
    ensures GetGoTypeForColumn("character varying") == GoTypeImport("string", "")
    ensures GetGoTypeForColumn("uuid") == GoTypeImport("string", "")
    ensures GetGoTypeForColumn("integer") == GoTypeImport("int", "")
    ensures GetGoTypeForColumn("boolean") == GoTypeImport("bool", "")
    ensures GetGoTypeForColumn("bigint") == GoTypeImport("int64", "")
    ensures GetGoTypeForColumn("timestamp with time zone") == GoTypeImport("time.Time", "time")
  {
  }

  // The catalog decoders below are column.go's own copies; each generation
  // of the source defines them again, with its own accepted spellings.
  /** DecodeIsColumnSequence: a default that is not NULL and calls `nextval(`. */
  function DecodeIsColumnSequence(columnDefaultValue: NullString): (r: bool)
    ensures r <==> (columnDefaultValue.valid &&
                    |columnDefaultValue.value| >= 8 && columnDefaultValue.value[..8] == "nextval(")
  {
    if !columnDefaultValue.valid then false
    else HasPrefix(columnDefaultValue.value, "nextval(")
  }

  /** DecodeNullable: "YES", "Yes" and "yes" mean nullable; "NO" and anything else do not. */
  function DecodeNullable(isNullable: string): (r: bool)
    ensures r <==> isNullable in {"YES", "Yes", "yes"}
  {
    if isNullable == "NO" then false
    else if isNullable == "YES" || isNullable == "Yes" || isNullable == "yes" then true
    else false
  }

  /** DecodeMaxLength: -1 stands for a NULL length; otherwise the stored value. */
  function DecodeMaxLength(maxLength: NullInt64): (r: int)
    ensures !maxLength.valid ==> r == -1
    ensures maxLength.valid ==> r == maxLength.value
  {
    if !maxLength.valid then -1 else maxLength.value
  }
}
