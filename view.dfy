/**
 * view.go: a database view, the columns collected for it, the import set
 * its Go code needs and the SQL fragments built from its columns (the
 * comma-joined column list, the `$n` placeholder list and the generic
 * SELECT).
 *
 * The type resolver view.go calls (two arguments, four results) is not
 * part of this model: it is the parameter `resolve`. The decoders are taken
 * to be the ones of dataTypesUtils.go (module DataTypes), the ones over pgx
 * values whose argument types match view.go's calls.
 */
module Views {
  import opened Text
  import opened Sql
  import Identifiers
  import DataTypes
  import opened Imports

  /** What the resolver returns: Go type, wrapper type, wrapper constructor, import. */
  datatype ViewResolution = ViewResolution(
    goType: string,
    nullableType: string,
    nullableTypeCreateFunc: string,
    goImport: string)

  /** One row of the column query: column_name, column_default, is_nullable, data_type, character_maximum_length. */
  datatype ViewRow = ViewRow(
    columnName: string,
    columnDefault: NullString,
    isNullable: string,
    dataType: string,
    charMaxLength: NullInt32)

  /** A column of a view, with the fields view.go sets. */
  datatype Column = Column(
    DbName: string,
    Type: string,
    DefaultValue: NullString,
    Nullable: bool,
    MaxLength: int,
    IsSequence: bool,
    IsCompositePK: bool,
    IsPK: bool,
    IsFK: bool,
    GoName: string,
    GoType: string,
    GoNullableType: string,
    NullableTypeCreateFunc: string)

  /** The resolver's answer for one row, given its decoded nullability. */
  function ResolveRow(row: ViewRow, resolve: (string, bool) -> ViewResolution): ViewResolution {
    resolve(row.dataType, DataTypes.DecodeNullable(row.isNullable))
  }

  /**
   * The Column literal built for one row. Ordinary views take IsSequence
   * from the default; materialized views always set it false.
   */
  function ColumnFromRow(row: ViewRow, materialized: bool, resolve: (string, bool) -> ViewResolution): (c: Column)
    ensures materialized ==> !c.IsSequence
    ensures !c.IsPK && !c.IsFK && !c.IsCompositePK
    ensures c.GoType == resolve(row.dataType, c.Nullable).goType
  {
    var nullable := DataTypes.DecodeNullable(row.isNullable);
    var res := resolve(row.dataType, nullable);
    Column(
      DbName := row.columnName,
      Type := row.dataType,
      DefaultValue := row.columnDefault,
      Nullable := nullable,
      MaxLength := DataTypes.DecodeMaxLength(row.charMaxLength),
      IsSequence := if materialized then false else DataTypes.DecodeIsColumnSequence(row.columnDefault),
      IsCompositePK := false, IsPK := false, IsFK := false,
      GoName := DataTypes.GetGoFriendlyNameForColumn(row.columnName),
      GoType := res.goType,
      GoNullableType := res.nullableType,
      NullableTypeCreateFunc := res.nullableTypeCreateFunc)
  }

  /**
   * What a collected column holds: the catalog values copied, the three
   * decoded flags, the key flags left false, the Go name from the shared
   * conversion and the Go types the resolver gives for the decoded
   * nullability; a materialized view never marks a sequence.
   */
  lemma ColumnFromRowFacts(row: ViewRow, materialized: bool, resolve: (string, bool) -> ViewResolution)
    ensures var c := ColumnFromRow(row, materialized, resolve);
      && c.DbName == row.columnName && c.Type == row.dataType && c.DefaultValue == row.columnDefault
      && (c.Nullable <==> row.isNullable in {"YES", "Yes", "yes"})
      && c.MaxLength == (if row.charMaxLength.valid then row.charMaxLength.value else -1)
      && (c.IsSequence <==> !materialized && row.columnDefault.valid && HasPrefix(row.columnDefault.value, "nextval("))
      && !c.IsPK && !c.IsFK && !c.IsCompositePK
      && c.GoName == Identifiers.SnakeToGo(row.columnName)
      && c.GoType == resolve(row.dataType, c.Nullable).goType
      && c.GoNullableType == resolve(row.dataType, c.Nullable).nullableType
      && c.NullableTypeCreateFunc == resolve(row.dataType, c.Nullable).nullableTypeCreateFunc
  {
    Identifiers.FriendlyNameFacts(row.columnName);
  }

  function ColumnsFromRows(rows: seq<ViewRow>, materialized: bool, resolve: (string, bool) -> ViewResolution): seq<Column> {
    seq(|rows|, i requires 0 <= i < |rows| => ColumnFromRow(rows[i], materialized, resolve))
  }

  /** The imports the resolver asks for, row by row. */
  function ImportsOf(rows: seq<ViewRow>, resolve: (string, bool) -> ViewResolution): seq<string> {
    seq(|rows|, i requires 0 <= i < |rows| => ResolveRow(rows[i], resolve).goImport)
  }

  /** Taking one more row adds its column at the end and its import, if any, to the map. */
  lemma RowStep(m: map<string, string>, rows: seq<ViewRow>, i: nat, materialized: bool, resolve: (string, bool) -> ViewResolution)
    requires i < |rows|
    ensures ColumnsFromRows(rows[..i + 1], materialized, resolve)
         == ColumnsFromRows(rows[..i], materialized, resolve) + [ColumnFromRow(rows[i], materialized, resolve)]
    ensures AddImports(m, ImportsOf(rows[..i + 1], resolve))
         == var goImport := ResolveRow(rows[i], resolve).goImport;
            var before := AddImports(m, ImportsOf(rows[..i], resolve));
            if goImport != "" then before[goImport := goImport] else before
  {
    assert rows[..i + 1][..i] == rows[..i];
    var xs := ImportsOf(rows[..i + 1], resolve);
    assert xs[..|xs| - 1] == ImportsOf(rows[..i], resolve);
  }

  /** The names of the columns, in order. */
  function ColumnNames(cols: seq<Column>): seq<string> {
    seq(|cols|, i requires 0 <= i < |cols| => cols[i].DbName)
  }

  /**
   * What the list loops have written after `i` of the entries: each entry
   * followed by `", "` except the last one of the whole list.
   */
  function ListPrefix(xs: seq<string>, i: nat): string
    requires i <= |xs|
  {
    if i == 0 then "" else Join(xs[..i], ", ") + (if i < |xs| then ", " else "")
  }

  lemma ListPrefixStep(xs: seq<string>, i: nat)
    requires i < |xs|
    ensures ListPrefix(xs, i + 1) == ListPrefix(xs, i) + (if i == |xs| - 1 then xs[i] else xs[i] + ", ")
  {
    assert xs[..i + 1] == xs[..i] + [xs[i]];
    if i > 0 {
      JoinSnoc(xs[..i], xs[i], ", ");
    } else {
      assert xs[..1] == [xs[0]];
    }
  }

  lemma ListPrefixComplete(xs: seq<string>)
    ensures ListPrefix(xs, |xs|) == Join(xs, ", ")
  {
    assert xs[..|xs|] == xs;
  }

  /** getSqlFriendlyColumnList's result as a function of the names. */
  function SqlColumnList(names: seq<string>): string {
    TrimSuffix(Join(names, ", "), ", ")
  }

  /** The placeholders `$1` to `$n`. */
  function Placeholders(n: nat): seq<string> {
    seq(n, i requires 0 <= i < n => "$" + Itoa(i + 1))
  }

  /** getSqlFriendlyParameters' result as a function of the number of columns. */
  function ParamList(n: nat): string {
    TrimSuffix(Join(Placeholders(n), ", "), ", ")
  }

  /** The generic SELECT of a view. */
  function SelectQuery(names: seq<string>, dbName: string): string {
    "SELECT " + SqlColumnList(names) + " FROM " + dbName + " "
  }

  /** A join ends with its last element, after a separator when there are several. */
  lemma JoinLast(xs: seq<string>, sep: string)
    requires xs != []
    ensures Join(xs, sep) == Join(xs[..|xs| - 1], sep) + (if |xs| > 1 then sep else "") + xs[|xs| - 1]
  {
    var n := |xs|;
    assert xs == xs[..n - 1] + [xs[n - 1]];
    if n > 1 {
      JoinSnoc(xs[..n - 1], xs[n - 1], sep);
    }
  }

  /** A string ending in a non-empty entry without `,`, after nothing or a space, does not end in `", "`. */
  lemma EndsWithEntry(pre: string, last: string)
    requires last != "" && ',' !in last
    requires pre == "" || pre[|pre| - 1] == ' '
    ensures !HasSuffix(pre + last, ", ")
  {
    var s := pre + last;
    if |s| >= 2 {
      var c := s[|s| - 2];
      if |last| >= 2 {
        assert c == last[|last| - 2];
        assert c in last;
      } else {
        assert c == pre[|pre| - 1];
      }
      assert s[|s| - 2..][0] == c;
    }
  }

  /**
   * When no entry contains `,` and the last one is not empty, the rendered
   * list does not end in `", "`, so the final trim leaves it alone.
   */
  lemma NoTrailingSeparator(xs: seq<string>)
    requires xs != []
    requires forall i :: 0 <= i < |xs| ==> ',' !in xs[i]
    requires xs[|xs| - 1] != ""
    ensures TrimSuffix(Join(xs, ", "), ", ") == Join(xs, ", ")
  {
    var n := |xs|;
    JoinLast(xs, ", ");
    if n > 1 {
      var pre := Join(xs[..n - 1], ", ") + ", ";
      assert Join(xs, ", ") == pre + xs[n - 1];
      EndsWithEntry(pre, xs[n - 1]);
    } else {
      assert Join(xs, ", ") == "" + xs[0];
      EndsWithEntry("", xs[0]);
    }
  }

  /**
   * The column list reads back as the column names, in order, none lost or
   * gained, provided no name contains `,` and the last is not empty; no
   * columns give "".
   */
  lemma ColumnListRoundTrip(names: seq<string>)
    requires forall i :: 0 <= i < |names| ==> ',' !in names[i]
    requires names != [] ==> names[|names| - 1] != ""
    ensures names == [] ==> SqlColumnList(names) == ""
    ensures names != [] ==> Entries(SqlColumnList(names)) == names
  {
    if names != [] {
      NoTrailingSeparator(names);
      EntriesOfJoin(names);
    }
  }

  /**
   * The trim at the end is not only cosmetic: an empty last name leaves a
   * trailing `", "` that the trim removes, so that name disappears from the
   * list (`["a", ""]` gives `"a"`).
   */
  lemma EmptyLastNameAbsorbed(names: seq<string>)
    requires |names| >= 2 && names[|names| - 1] == ""
    ensures SqlColumnList(names) == Join(names[..|names| - 1], ", ")
  {
    JoinLast(names, ", ");
    var s := Join(names, ", ");
    var p := Join(names[..|names| - 1], ", ");
    assert s == p + ", ";
    assert HasSuffix(s, ", ");
  }

  lemma PlaceholderFacts(n: nat, i: nat)
    requires i < n
    ensures Placeholders(n)[i] == "$" + Itoa(i + 1)
    ensures ',' !in Placeholders(n)[i] && Placeholders(n)[i] != ""
  {
    var p := Placeholders(n)[i];
    forall j | 0 <= j < |p| ensures p[j] != ',' {
      if j > 0 {
        assert p[j] == Itoa(i + 1)[j - 1];
      }
    }
  }

  /** `e` is the placeholder `$k`: a `$` and then the decimal numeral of `k`. */
  predicate IsPlaceholder(e: string, k: nat) {
    |e| >= 2 && e[0] == '$' && (forall j :: 1 <= j < |e| ==> IsDigit(e[j])) && Atoi(e[1..]) == k
  }

  /**
   * The placeholder list reads back as `$1`, `$2`, ... `$n`: it splits at
   * `", "` into exactly the placeholders, and entry `i` is `$` followed by
   * the decimal numeral of `i + 1`, numbered consecutively from 1 with no
   * gap; no columns give "".
   */
  lemma ParamListRoundTrip(n: nat)
    ensures n == 0 ==> ParamList(n) == ""
    ensures n > 0 ==> Entries(ParamList(n)) == Placeholders(n)
    ensures n > 0 ==> |Entries(ParamList(n))| == n
    ensures n > 0 ==> forall i :: 0 <= i < n ==> IsPlaceholder(Entries(ParamList(n))[i], i + 1)
  {
    if n > 0 {
      var ps := Placeholders(n);
      forall i | 0 <= i < n
        ensures ',' !in ps[i] && ps[i] != ""
      {
        PlaceholderFacts(n, i);
      }
      NoTrailingSeparator(ps);
      EntriesOfJoin(ps);
      forall i | 0 <= i < n
        ensures IsPlaceholder(ps[i], i + 1)
      {
        PlaceholderFacts(n, i);
        assert ps[i][1..] == Itoa(i + 1);
        AtoiItoa(i + 1);
      }
    }
  }

  /**
   * Neither list skips a column: with names as in ColumnListRoundTrip, the
   * column list and the placeholder list have one entry per column, so they
   * pair up one-to-one.
   */
  lemma ListsAlign(cols: seq<Column>)
    requires cols != []
    requires forall i :: 0 <= i < |cols| ==> ',' !in cols[i].DbName
    requires cols[|cols| - 1].DbName != ""
    ensures |Entries(SqlColumnList(ColumnNames(cols)))| == |Entries(ParamList(|cols|))| == |cols|
  {
    ColumnListRoundTrip(ColumnNames(cols));
    ParamListRoundTrip(|cols|);
  }

  /**
   * A materialized view's is_nullable is the text of a boolean cast,
   * `"true"` or `"false"`, which this DecodeNullable does not recognise:
   * every materialized-view column comes out not nullable.
   */
  lemma MaterializedColumnsNeverNullable(row: ViewRow, resolve: (string, bool) -> ViewResolution)
    requires row.isNullable in {"true", "false"}
    ensures !ColumnFromRow(row, true, resolve).Nullable
    ensures !ColumnFromRow(row, true, resolve).IsSequence
    ensures ColumnFromRow(row, true, resolve).GoType == resolve(row.dataType, false).goType
  {
    ColumnFromRowFacts(row, true, resolve);
  }

  class View {
    var Columns: seq<Column>
    var ColumnsString: string
    var DbName: string
    var GoFriendlyName: string
    var GoTypesToImport: map<string, string>
    var GenericSelectQuery: string
    var ParamString: string
    var IsMaterialized: bool

    constructor (dbName: string, goFriendlyName: string, isMaterialized: bool)
      ensures DbName == dbName && GoFriendlyName == goFriendlyName && IsMaterialized == isMaterialized
      ensures Columns == [] && GoTypesToImport == map[]
      ensures ColumnsString == "" && ParamString == "" && GenericSelectQuery == ""
    {
      DbName := dbName;
      GoFriendlyName := goFriendlyName;
      IsMaterialized := isMaterialized;
      Columns := [];
      GoTypesToImport := map[];
      ColumnsString := "";
      ParamString := "";
      GenericSelectQuery := "";
    }

    /** getSqlFriendlyColumnList. */
    method GetSqlFriendlyColumnList() returns (finalString: string)
      ensures finalString == SqlColumnList(ColumnNames(Columns))
    {
      var names := ColumnNames(Columns);
      var buffer := "";
      var totalNumberOfColumns := |Columns| - 1;
      var colRange := 0;
      while colRange < |Columns|
        invariant 0 <= colRange <= |Columns|
        invariant buffer == ListPrefix(names, colRange)
      {
        var colNameToWriteToBuffer: string;
        if totalNumberOfColumns == colRange {
          colNameToWriteToBuffer := Columns[colRange].DbName;
        } else {
          colNameToWriteToBuffer := Columns[colRange].DbName + ", ";
        }
        ListPrefixStep(names, colRange);
        buffer := buffer + colNameToWriteToBuffer;
        colRange := colRange + 1;
      }
      ListPrefixComplete(names);
      finalString := buffer;
      if HasSuffix(finalString, ", ") {
        finalString := TrimSuffix(finalString, ", ");
      }
    }

    /** getSqlFriendlyParameters: one placeholder per column, counted from 1. */
    method GetSqlFriendlyParameters() returns (finalString: string)
      ensures finalString == ParamList(|Columns|)
    {
      var ps := Placeholders(|Columns|);
      var buffer := "";
      var totalNumberOfColumns := |Columns| - 1;
      var realParamCount := 1;
      var colRange := 0;
      while colRange < |Columns|
        invariant 0 <= colRange <= |Columns|
        invariant realParamCount == colRange + 1
        invariant buffer == ListPrefix(ps, colRange)
      {
        var currentParamCount := "$" + Itoa(realParamCount);
        realParamCount := realParamCount + 1;
        var paramToWriteToBuffer: string;
        if totalNumberOfColumns == colRange {
          paramToWriteToBuffer := currentParamCount;
        } else {
          paramToWriteToBuffer := currentParamCount + ", ";
        }
        ListPrefixStep(ps, colRange);
        buffer := buffer + paramToWriteToBuffer;
        colRange := colRange + 1;
      }
      ListPrefixComplete(ps);
      finalString := buffer;
      if HasSuffix(finalString, ", ") {
        finalString := TrimSuffix(finalString, ", ");
      }
    }

    /** AddGoTypeToImport: the package maps to itself; nothing else changes. */
    method AddGoTypeToImport(goTypeToImport: string)
      modifies this`GoTypesToImport
      ensures GoTypesToImport == old(GoTypesToImport)[goTypeToImport := goTypeToImport]
      ensures SelfKeyed(old(GoTypesToImport)) ==> SelfKeyed(GoTypesToImport)
    {
      GoTypesToImport := GoTypesToImport[goTypeToImport := goTypeToImport];
    }

    /** CreateGenericQueries: only a view with columns gets a generic SELECT. */
    method CreateGenericQueries()
      modifies this`GenericSelectQuery
      ensures |Columns| > 0 ==> GenericSelectQuery == SelectQuery(ColumnNames(Columns), DbName)
      ensures |Columns| == 0 ==> GenericSelectQuery == old(GenericSelectQuery)
    {
      if |Columns| > 0 {
        var columnList := GetSqlFriendlyColumnList();
        GenericSelectQuery := "SELECT " + columnList + " FROM " + DbName + " ";
      }
    }

    /**
     * The row loop shared by CollectColumns and CollectMaterializedViewColumns:
     * one Column per row appended in order and each non-empty import added.
     */
    method AppendRows(rows: seq<ViewRow>, materialized: bool, resolve: (string, bool) -> ViewResolution)
      modifies this`Columns, this`GoTypesToImport
      ensures Columns == old(Columns) + ColumnsFromRows(rows, materialized, resolve)
      ensures GoTypesToImport == AddImports(old(GoTypesToImport), ImportsOf(rows, resolve))
    {
      var i := 0;
      while i < |rows|
        invariant 0 <= i <= |rows|
        invariant Columns == old(Columns) + ColumnsFromRows(rows[..i], materialized, resolve)
        invariant GoTypesToImport == AddImports(old(GoTypesToImport), ImportsOf(rows[..i], resolve))
      {
        var row := rows[i];
        var nullable := DataTypes.DecodeNullable(row.isNullable);
        var res := resolve(row.dataType, nullable);
        assert res == ResolveRow(row, resolve);
        RowStep(old(GoTypesToImport), rows, i, materialized, resolve);
        if res.goImport != "" {
          GoTypesToImport := GoTypesToImport[res.goImport := res.goImport];
        }
        var currentColumn := ColumnFromRow(row, materialized, resolve);
        Columns := Columns + [currentColumn];
        i := i + 1;
      }
      assert rows[..i] == rows;
    }

    /** The row loop followed by the recomputation of both lists once the view has columns. */
    method CollectRows(rows: seq<ViewRow>, materialized: bool, resolve: (string, bool) -> ViewResolution)
      modifies this`Columns, this`GoTypesToImport, this`ColumnsString, this`ParamString
      ensures Columns == old(Columns) + ColumnsFromRows(rows, materialized, resolve)
      ensures GoTypesToImport == AddImports(old(GoTypesToImport), ImportsOf(rows, resolve))
      ensures |Columns| > 0 ==> ColumnsString == SqlColumnList(ColumnNames(Columns)) && ParamString == ParamList(|Columns|)
      ensures |Columns| == 0 ==> ColumnsString == old(ColumnsString) && ParamString == old(ParamString)
    {
      AppendRows(rows, materialized, resolve);
      if |Columns| > 0 {
        ColumnsString := GetSqlFriendlyColumnList();
        ParamString := GetSqlFriendlyParameters();
      }
    }

    /** CollectColumns of an ordinary view. */
    method CollectColumns(rows: seq<ViewRow>, resolve: (string, bool) -> ViewResolution)
      modifies this`Columns, this`GoTypesToImport, this`ColumnsString, this`ParamString
      ensures Columns == old(Columns) + ColumnsFromRows(rows, false, resolve)
      ensures GoTypesToImport == AddImports(old(GoTypesToImport), ImportsOf(rows, resolve))
      ensures |Columns| > 0 ==> ColumnsString == SqlColumnList(ColumnNames(Columns)) && ParamString == ParamList(|Columns|)
      ensures |Columns| == 0 ==> ColumnsString == old(ColumnsString) && ParamString == old(ParamString)
    {
      CollectRows(rows, false, resolve);
    }

    /** CollectMaterializedViewColumns: as CollectColumns, with IsSequence always false. */
    method CollectMaterializedViewColumns(rows: seq<ViewRow>, resolve: (string, bool) -> ViewResolution)
      modifies this`Columns, this`GoTypesToImport, this`ColumnsString, this`ParamString
      ensures Columns == old(Columns) + ColumnsFromRows(rows, true, resolve)
      ensures GoTypesToImport == AddImports(old(GoTypesToImport), ImportsOf(rows, resolve))
      ensures |Columns| > 0 ==> ColumnsString == SqlColumnList(ColumnNames(Columns)) && ParamString == ParamList(|Columns|)
      ensures |Columns| == 0 ==> ColumnsString == old(ColumnsString) && ParamString == old(ParamString)
    {
      CollectRows(rows, true, resolve);
    }
  }
}
