/**
 * toolOptions.go: the generator's options, the base tables it collects
 * from `information_schema.tables` and the table-name conversion.
 */
module Options {
  import opened Text
  import Identifiers
  import TableGo = Tables

  /** GetGoFriendlyNameForTable. */
  function GetGoFriendlyNameForTable(tableName: string): (r: string)
    ensures r == Identifiers.SnakeToGo(tableName)
    ensures '_' !in tableName ==> r == Title(tableName)
    ensures '_' !in r
  {
    Identifiers.FriendlyNameFacts(tableName);
    if '_' !in tableName then Title(tableName)
    else Join(Identifiers.TitleEach(Split(tableName, '_')), "")
  }

  /**
   * Only the case of runes changes: lower-cased, the result is the name
   * without its `_`s lower-cased; and doubled `_`s (the empty pieces
   * between them) change nothing.
   */
  lemma TableNameFacts(a: string, b: string)
    ensures Lower(GetGoFriendlyNameForTable(a)) == Lower(Remove(a, '_'))
    ensures |GetGoFriendlyNameForTable(a)| == |Remove(a, '_')|
    ensures GetGoFriendlyNameForTable(a + "__" + b) == GetGoFriendlyNameForTable(a + "_" + b)
  {
    Identifiers.FriendlyNameFacts(a);
    Identifiers.EmptyPiecesVanish(a, b);
  }

  /** The table collected for one catalog name, given the column rows the catalog holds for it. */
  function TableFromName(tableName: string, catalog: string -> seq<TableGo.ColumnRow>): (t: TableGo.TableRecord)
    ensures t.TableName == tableName
    ensures t.GoFriendlyName == Identifiers.SnakeToGo(tableName)
    ensures t.Columns == TableGo.ColumnsFromRows(catalog(tableName))
    ensures |t.Columns| == |catalog(tableName)|
    ensures forall i :: 0 <= i < |t.Columns| ==>
      t.Columns[i].Name == catalog(tableName)[i].columnName &&
      t.Columns[i].GoType == TableGo.GetGoTypeForColumn(catalog(tableName)[i].udtName)
  {
    TableGo.TableRecord(
      Columns := TableGo.ColumnsFromRows(catalog(tableName)),
      TableName := tableName,
      GoFriendlyName := GetGoFriendlyNameForTable(tableName))
  }

  function TablesFromNames(names: seq<string>, catalog: string -> seq<TableGo.ColumnRow>): seq<TableGo.TableRecord> {
    seq(|names|, i requires 0 <= i < |names| => TableFromName(names[i], catalog))
  }

  class ToolOptions {
    var Tables: seq<TableGo.TableRecord>

    constructor ()
      ensures Tables == []
    {
      Tables := [];
    }

    /**
     * CollectTables over the table names the catalog query returned, in
     * order: a fresh Table per name, its columns collected, then a copy
     * appended to `Tables`.
     */
    method CollectTables(tableNames: seq<string>, catalog: string -> seq<TableGo.ColumnRow>)
      modifies this`Tables
      ensures Tables == old(Tables) + TablesFromNames(tableNames, catalog)
    {
      var i := 0;
      while i < |tableNames|
        invariant 0 <= i <= |tableNames|
        invariant Tables == old(Tables) + TablesFromNames(tableNames[..i], catalog)
      {
        var currentTableName := tableNames[i];
        var currentTable := new TableGo.Table(currentTableName, GetGoFriendlyNameForTable(currentTableName));
        currentTable.CollectColumns(catalog(currentTableName));
        assert currentTable.Columns == TableGo.ColumnsFromRows(catalog(currentTableName));
        // The struct is copied into the slice (`*currentTable`).
        Tables := Tables + [TableGo.TableRecord(currentTable.Columns, currentTable.TableName, currentTable.GoFriendlyName)];
        assert tableNames[..i + 1] == tableNames[..i] + [tableNames[i]];
        assert TablesFromNames(tableNames[..i + 1], catalog)
            == TablesFromNames(tableNames[..i], catalog) + [TableFromName(tableNames[i], catalog)];
        i := i + 1;
      }
      assert tableNames[..i] == tableNames;
    }
  }
}
