/**
 * table.go: a base table and the columns collected for it from
 * `information_schema.columns`, plus the udt-name type table and the
 * decoders this file uses.
 */
module Tables {
  import opened Text
  import opened Sql
  import Identifiers

  /** One column of a table as table.go records it. */
  datatype Column = Column(
    Name: string,
    Type: string,
    DefaultValue: NullString,
    Nullable: bool,
    GoName: string,
    GoType: string,
    ColumnComment: string)

  /** One row of the column query: column_name, column_default, is_nullable, udt_name. */
  datatype ColumnRow = ColumnRow(
    columnName: string,
    columnDefault: NullString,
    isNullable: string,
    udtName: string)

  /** A table as a value, as `ToolOptions.Tables` holds it (a copy of the struct). */
  datatype TableRecord = TableRecord(Columns: seq<Column>, TableName: string, GoFriendlyName: string)

  /**
   * GetGoFriendlyNameForColumn: table.go keeps its own copy of the name
   * conversion; it is the shared Identifiers.SnakeToGo.
   */
  function GetGoFriendlyNameForColumn(columnName: string): (r: string)
    ensures r == Identifiers.SnakeToGo(columnName)
    ensures '_' !in r
    ensures Lower(r) == Lower(Remove(columnName, '_'))
  {
    Identifiers.FriendlyNameFacts(columnName);
    if '_' !in columnName then Title(columnName)
    else Join(Identifiers.TitleEach(Split(columnName, '_')), "")
  }

  /** GetGoTypeForColumn: keyed by the udt name; only two entries. */
  function GetGoTypeForColumn(udtType: string): (r: string)
    ensures r != "" <==> udtType in {"varchar", "int4"}
    ensures r == "string" <==> udtType == "varchar"
    ensures r == "int" <==> udtType == "int4"
  {
    match udtType
    case "varchar" => "string"
    case "int4" => "int"
    case _ => ""
  }

  // The catalog decoder below is table.go's own copy; each generation
  // of the source defines them again, with its own accepted spellings.
  /** DecodeNullable: "YES", "Yes" and "yes" mean nullable; "NO" and anything else do not. */
  function DecodeNullable(isNullable: string): (r: bool)
    ensures r <==> isNullable in {"YES", "Yes", "yes"}
  {
    if isNullable == "NO" then false
    else if isNullable == "YES" || isNullable == "Yes" || isNullable == "yes" then true
    else false
  }

  /** The Column literal built for one catalog row. */
  function ColumnFromRow(row: ColumnRow): (c: Column)
    ensures c.Name == row.columnName && c.Type == row.udtName
    ensures c.DefaultValue == row.columnDefault
    ensures c.Nullable <==> row.isNullable in {"YES", "Yes", "yes"}
    ensures c.GoType == GetGoTypeForColumn(row.udtName)
    ensures c.GoType != "" <==> row.udtName in {"varchar", "int4"}
    ensures c.GoName == Identifiers.SnakeToGo(row.columnName) && '_' !in c.GoName
    ensures c.ColumnComment == ""
  {
    Column(
      Name := row.columnName,
      Type := row.udtName,
      DefaultValue := row.columnDefault,
      Nullable := DecodeNullable(row.isNullable),
      GoName := GetGoFriendlyNameForColumn(row.columnName),
      GoType := GetGoTypeForColumn(row.udtName),
      ColumnComment := "")
  }

  function ColumnsFromRows(rows: seq<ColumnRow>): seq<Column> {
    seq(|rows|, i requires 0 <= i < |rows| => ColumnFromRow(rows[i]))
  }

  /** Collecting two batches of rows is collecting their concatenation. */
  lemma ColumnsFromRowsAppend(a: seq<ColumnRow>, b: seq<ColumnRow>)
    ensures ColumnsFromRows(a + b) == ColumnsFromRows(a) + ColumnsFromRows(b)
  {
  }

  /** The i-th collected column comes from the i-th row, whatever came before. */
  lemma CollectedColumnAt(before: seq<Column>, rows: seq<ColumnRow>, i: nat)
    requires i < |rows|
    ensures |before + ColumnsFromRows(rows)| == |before| + |rows|
    ensures (before + ColumnsFromRows(rows))[|before| + i].Name == rows[i].columnName
    ensures (before + ColumnsFromRows(rows))[|before| + i].Type == rows[i].udtName
    ensures (before + ColumnsFromRows(rows))[|before| + i].Nullable == DecodeNullable(rows[i].isNullable)
    ensures (before + ColumnsFromRows(rows))[|before| + i].GoType == GetGoTypeForColumn(rows[i].udtName)
    ensures (before + ColumnsFromRows(rows))[..|before|] == before
  {
  }

  class Table {
    var Columns: seq<Column>
    var TableName: string
    var GoFriendlyName: string

    /** The literal `&Table{TableName: ..., GoFriendlyName: ...}`: no columns yet. */
    constructor (tableName: string, goFriendlyName: string)
      ensures TableName == tableName && GoFriendlyName == goFriendlyName
      ensures Columns == []
    {
      TableName := tableName;
      GoFriendlyName := goFriendlyName;
      Columns := [];
    }

    /**
     * CollectColumns over the rows the query returned, in order: one Column
     * appended per row; the columns already there stay as they were.
     */
    method CollectColumns(rows: seq<ColumnRow>)
      modifies this`Columns
      ensures Columns == old(Columns) + ColumnsFromRows(rows)
    {
      var i := 0;
      while i < |rows|
        invariant 0 <= i <= |rows|
        invariant Columns == old(Columns) + ColumnsFromRows(rows[..i])
      {
        var currentColumn := ColumnFromRow(rows[i]);
        Columns := Columns + [currentColumn];
        assert rows[..i + 1] == rows[..i] + [rows[i]];
        ColumnsFromRowsAppend(rows[..i], [rows[i]]);
        i := i + 1;
      }
      assert rows[..i] == rows;
    }
  }
}
