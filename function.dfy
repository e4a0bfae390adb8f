/**
 * function.go: a stored function, the classification of what it returns
 * and the parameters it takes.
 *
 * The catalog answers are inputs: the routine query's single row (or why
 * there is none) and the parameter rows, in ordinal order. The type
 * resolver function.go calls (two arguments, three results) is not part
 * of this model: it is the parameter `resolve`.
 */
module Functions {
  import opened Text
  import opened Sql
  import opened Wrappers
  import opened Imports
  import Identifiers
  import Views

  /** What the resolver returns: Go type, wrapper type, import. */
  datatype FuncResolution = FuncResolution(goType: string, nullableType: string, goImport: string)

  /** A collected table or view, as CollectFunction sees it. */
  datatype Relation = Relation(DbName: string, GoFriendlyName: string, Columns: seq<Views.Column>)

  /** The outcome of the routine query. */
  datatype RoutineLookup =
    | NoRows
    | QueryFailed
    | Routine(routineName: string, routineDataType: string, routineUdtName: string, isSetOf: bool)

  /** One row of the parameter query. */
  datatype ParameterRow = ParameterRow(
    parameterName: string,
    parameterDataType: string,
    parameterMode: string,
    parameterDefault: PgText,
    ordinalPosition: PgInt4)

  datatype FunctionParameter = FunctionParameter(
    DbName: string,
    GoFriendlyName: string,
    DbComments: string,
    Mode: string,
    Type: string,
    GoType: string,
    GoNullableType: string,
    IsOptional: bool,
    DefaultValue: string)

  /** How a function's return is classified. */
  datatype ReturnKind =
    | UserDefined(relation: Relation)
    | Unmatched
    | Void
    | Scalar(typeName: string)

  /** GetGoFriendlyNameForFunction. */
  function GetGoFriendlyNameForFunction(routineName: string): (r: string)
    ensures '_' !in r
  {
    Identifiers.FriendlyNameFacts(routineName);
    if '_' !in routineName then Title(routineName)
    else Join(Identifiers.TitleEach(Split(routineName, '_')), "")
  }

  /** GetGoFriendlyNameForFunctionParam. */
  function GetGoFriendlyNameForFunctionParam(paramName: string): (r: string)
    ensures '_' !in r
  {
    Identifiers.FriendlyNameFacts(paramName);
    if '_' !in paramName then Title(paramName)
    else Join(Identifiers.TitleEach(Split(paramName, '_')), "")
  }

  /**
   * Both name conversions are the shared snake_case conversion: the
   * title-cased whole name when it has no `_`, otherwise the title-cased
   * pieces concatenated; the result has no `_`, differs from the name only
   * in the case of runes, and doubled `_`s change nothing.
   */
  lemma FunctionNameFacts(name: string, a: string, b: string)
    ensures GetGoFriendlyNameForFunction(name) == Identifiers.SnakeToGo(name)
    ensures GetGoFriendlyNameForFunctionParam(name) == Identifiers.SnakeToGo(name)
    ensures '_' !in name ==> GetGoFriendlyNameForFunction(name) == Title(name)
    ensures '_' !in GetGoFriendlyNameForFunction(name)
    ensures Lower(GetGoFriendlyNameForFunction(name)) == Lower(Remove(name, '_'))
    ensures GetGoFriendlyNameForFunction(a + "__" + b) == GetGoFriendlyNameForFunction(a + "_" + b)
  {
    Identifiers.FriendlyNameFacts(name);
    Identifiers.FriendlyNameFacts(a + "__" + b);
    Identifiers.FriendlyNameFacts(a + "_" + b);
    Identifiers.EmptyPiecesVanish(a, b);
  }

  /** The last relation named `udtName`, scanning in order. */
  function LastMatch(rels: seq<Relation>, udtName: string): Option<Relation> {
    if rels == [] then None
    else if rels[|rels| - 1].DbName == udtName then Some(rels[|rels| - 1])
    else LastMatch(rels[..|rels| - 1], udtName)
  }

  /**
   * A match exists exactly when some relation has the name, and it is the
   * last such relation: every later one has another name.
   */
  lemma {:induction false} LastMatchFacts(rels: seq<Relation>, udtName: string)
    ensures LastMatch(rels, udtName).Some? <==> exists i :: 0 <= i < |rels| && rels[i].DbName == udtName
    ensures LastMatch(rels, udtName).Some? ==>
      exists i :: 0 <= i < |rels| && rels[i] == LastMatch(rels, udtName).value &&
        rels[i].DbName == udtName && forall j :: i < j < |rels| ==> rels[j].DbName != udtName
  {
    if rels != [] {
      var init := rels[..|rels| - 1];
      LastMatchFacts(init, udtName);
      if rels[|rels| - 1].DbName != udtName {
        if exists i :: 0 <= i < |rels| && rels[i].DbName == udtName {
          var i :| 0 <= i < |rels| && rels[i].DbName == udtName;
          assert init[i].DbName == udtName;
        }
        if LastMatch(rels, udtName).Some? {
          var i :| 0 <= i < |init| && init[i] == LastMatch(init, udtName).value &&
            init[i].DbName == udtName && forall j :: i < j < |init| ==> init[j].DbName != udtName;
          assert rels[i] == init[i];
        }
      }
    }
  }

  /** Views are scanned after tables: a matching view wins over every table. */
  lemma {:induction false} ViewsAfterTables(tables: seq<Relation>, views: seq<Relation>, udtName: string)
    ensures LastMatch(views, udtName).Some? ==> LastMatch(tables + views, udtName) == LastMatch(views, udtName)
    ensures LastMatch(views, udtName).None? ==> LastMatch(tables + views, udtName) == LastMatch(tables, udtName)
  {
    if views == [] {
      assert tables + views == tables;
    } else {
      var all := tables + views;
      assert all[..|all| - 1] == tables + views[..|views| - 1];
      ViewsAfterTables(tables, views[..|views| - 1], udtName);
    }
  }

  /** The return classification of CollectFunction. */
  function ClassifyReturn(routineDataType: string, routineUdtName: string, tables: seq<Relation>, views: seq<Relation>): (k: ReturnKind)
    ensures k.Void? <==> routineDataType == "void"
    ensures k.Scalar? <==> routineDataType != "USER-DEFINED" && routineDataType != "void"
    ensures k.Scalar? ==> k.typeName == routineDataType
    ensures k.UserDefined? || k.Unmatched? <==> routineDataType == "USER-DEFINED"
    ensures k.UserDefined? ==> k.relation.DbName == routineUdtName
  {
    LastMatchFacts(tables + views, routineUdtName);
    if routineDataType == "USER-DEFINED" then
      match LastMatch(tables + views, routineUdtName)
      case Some(r) => UserDefined(r)
      case None => Unmatched
    else if routineDataType == "void" then Void
    else Scalar(routineDataType)
  }

  /** A parameter's default: the catalog text when present and not empty, "" otherwise. */
  function DefaultValueOf(parameterDefault: PgText): (r: string)
    ensures parameterDefault.status != Present ==> r == ""
    ensures parameterDefault.status == Present ==> r == parameterDefault.value
  {
    if parameterDefault.status == Present && parameterDefault.value != "" then parameterDefault.value else ""
  }

  /**
   * A USER-DEFINED return is dropped exactly when no table and no view has
   * the return type's name; otherwise it is the last view so named, or the
   * last table so named when no view is.
   */
  lemma ClassifyUserDefined(routineUdtName: string, tables: seq<Relation>, views: seq<Relation>)
    ensures ClassifyReturn("USER-DEFINED", routineUdtName, tables, views).Unmatched? <==>
      (forall i :: 0 <= i < |tables| ==> tables[i].DbName != routineUdtName) &&
      (forall i :: 0 <= i < |views| ==> views[i].DbName != routineUdtName)
    ensures LastMatch(views, routineUdtName).Some? ==>
      ClassifyReturn("USER-DEFINED", routineUdtName, tables, views) == UserDefined(LastMatch(views, routineUdtName).value)
    ensures LastMatch(views, routineUdtName).None? && LastMatch(tables, routineUdtName).Some? ==>
      ClassifyReturn("USER-DEFINED", routineUdtName, tables, views) == UserDefined(LastMatch(tables, routineUdtName).value)
  {
    ViewsAfterTables(tables, views, routineUdtName);
    LastMatchFacts(tables, routineUdtName);
    LastMatchFacts(views, routineUdtName);
  }

  /** The parameter literal built for one row; the scanned mode is not stored. */
  function ParameterFromRow(row: ParameterRow, resolve: (string, bool) -> FuncResolution): (p: FunctionParameter)
    ensures p.DbName == row.parameterName && p.Type == row.parameterDataType
    ensures p.DefaultValue == (if row.parameterDefault.status == Present then row.parameterDefault.value else "")
    ensures p.GoFriendlyName == Identifiers.SnakeToGo(row.parameterName)
    ensures p.GoType == resolve(row.parameterDataType, false).goType
    ensures p.GoNullableType == resolve(row.parameterDataType, false).nullableType
    ensures p.Mode == "" && p.DbComments == "" && !p.IsOptional
  {
    Identifiers.FriendlyNameFacts(row.parameterName);
    var res := resolve(row.parameterDataType, false);
    var parameterDefaultVal := DefaultValueOf(row.parameterDefault);
    FunctionParameter(
      DbName := row.parameterName,
      GoFriendlyName := GetGoFriendlyNameForFunctionParam(row.parameterName),
      DbComments := "",
      Mode := "",
      Type := row.parameterDataType,
      GoType := res.goType,
      GoNullableType := res.nullableType,
      IsOptional := false,
      DefaultValue := parameterDefaultVal)
  }

  /** The parameters CollectParameters keeps: those whose Go type resolves, in row order. */
  function KeptParameters(rows: seq<ParameterRow>, resolve: (string, bool) -> FuncResolution): (kept: seq<FunctionParameter>)
    ensures |kept| <= |rows|
  {
    if rows == [] then []
    else
      var p := ParameterFromRow(rows[|rows| - 1], resolve);
      KeptParameters(rows[..|rows| - 1], resolve) + (if p.GoType != "" then [p] else [])
  }

  /** The imports the resolver asks for, parameter by parameter. */
  function ParameterImports(rows: seq<ParameterRow>, resolve: (string, bool) -> FuncResolution): seq<string> {
    seq(|rows|, i requires 0 <= i < |rows| => resolve(rows[i].parameterDataType, false).goImport)
  }

  /** Every kept parameter has a Go type, and nothing is invented: each comes from a row. */
  lemma {:induction false} KeptParametersSound(rows: seq<ParameterRow>, resolve: (string, bool) -> FuncResolution)
    ensures |KeptParameters(rows, resolve)| <= |rows|
    ensures forall k :: 0 <= k < |KeptParameters(rows, resolve)| ==>
      KeptParameters(rows, resolve)[k].GoType != "" &&
      exists i :: 0 <= i < |rows| && KeptParameters(rows, resolve)[k] == ParameterFromRow(rows[i], resolve)
  {
    if rows != [] {
      var init := rows[..|rows| - 1];
      KeptParametersSound(init, resolve);
      var kept := KeptParameters(rows, resolve);
      var keptInit := KeptParameters(init, resolve);
      forall k | 0 <= k < |kept|
        ensures exists i :: 0 <= i < |rows| && kept[k] == ParameterFromRow(rows[i], resolve)
      {
        if k < |keptInit| {
          var i :| 0 <= i < |init| && keptInit[k] == ParameterFromRow(init[i], resolve);
          assert rows[i] == init[i];
        } else {
          assert kept[k] == ParameterFromRow(rows[|rows| - 1], resolve);
        }
      }
    }
  }

  /** A row whose type resolves is kept. */
  lemma {:induction false} ResolvedParametersKept(rows: seq<ParameterRow>, resolve: (string, bool) -> FuncResolution, i: nat)
    requires i < |rows|
    requires resolve(rows[i].parameterDataType, false).goType != ""
    ensures ParameterFromRow(rows[i], resolve) in KeptParameters(rows, resolve)
  {
    var init := rows[..|rows| - 1];
    var kept := KeptParameters(init, resolve);
    var last := ParameterFromRow(rows[|rows| - 1], resolve);
    var tail := if last.GoType != "" then [last] else [];
    assert KeptParameters(rows, resolve) == kept + tail;
    if i < |init| {
      assert rows[i] == init[i];
      ResolvedParametersKept(init, resolve, i);
      InConcat(ParameterFromRow(rows[i], resolve), kept, tail);
    } else {
      InConcat(last, [], tail);
    }
  }

  /** Membership survives appending on either side. */
  lemma InConcat<T>(x: T, a: seq<T>, b: seq<T>)
    ensures x in a ==> x in a + b
    ensures x in b ==> x in a + b
  {
    if x in b {
      var j :| 0 <= j < |b| && b[j] == x;
      assert (a + b)[|a| + j] == x;
    }
  }

  lemma {:induction false} KeptParametersAppend(a: seq<ParameterRow>, b: seq<ParameterRow>, resolve: (string, bool) -> FuncResolution)
    ensures KeptParameters(a + b, resolve) == KeptParameters(a, resolve) + KeptParameters(b, resolve)
  {
    if b == [] {
      assert a + b == a;
    } else {
      var init := b[..|b| - 1];
      var p := ParameterFromRow(b[|b| - 1], resolve);
      var tail := if p.GoType != "" then [p] else [];
      assert (a + b)[..|a + b| - 1] == a + init;
      assert (a + b)[|a + b| - 1] == b[|b| - 1];
      assert KeptParameters(a + b, resolve) == KeptParameters(a + init, resolve) + tail;
      assert KeptParameters(b, resolve) == KeptParameters(init, resolve) + tail;
      KeptParametersAppend(a, init, resolve);
    }
  }

  /** When every parameter type resolves, every parameter is kept, in order. */
  lemma {:induction false} AllResolvedAllKept(rows: seq<ParameterRow>, resolve: (string, bool) -> FuncResolution)
    requires forall i :: 0 <= i < |rows| ==> resolve(rows[i].parameterDataType, false).goType != ""
    ensures KeptParameters(rows, resolve) == seq(|rows|, i requires 0 <= i < |rows| => ParameterFromRow(rows[i], resolve))
  {
    if rows != [] {
      var init := rows[..|rows| - 1];
      AllResolvedAllKept(init, resolve);
      assert seq(|rows|, i requires 0 <= i < |rows| => ParameterFromRow(rows[i], resolve))
          == seq(|init|, i requires 0 <= i < |init| => ParameterFromRow(init[i], resolve))
             + [ParameterFromRow(rows[|rows| - 1], resolve)];
    }
  }

  /** Taking one more row appends its parameter if it is kept... */
  lemma KeptStep(before: seq<FunctionParameter>, rows: seq<ParameterRow>, i: nat, resolve: (string, bool) -> FuncResolution)
    requires i < |rows|
    ensures before + KeptParameters(rows[..i + 1], resolve)
         == (before + KeptParameters(rows[..i], resolve))
            + (if ParameterFromRow(rows[i], resolve).GoType != "" then [ParameterFromRow(rows[i], resolve)] else [])
  {
    assert rows[..i + 1][..i] == rows[..i];
  }

  /** ...and adds its import, if any. */
  lemma ImportStep(m: map<string, string>, rows: seq<ParameterRow>, i: nat, resolve: (string, bool) -> FuncResolution)
    requires i < |rows|
    ensures AddImports(m, ParameterImports(rows[..i + 1], resolve))
         == var goImport := resolve(rows[i].parameterDataType, false).goImport;
            var before := AddImports(m, ParameterImports(rows[..i], resolve));
            if goImport != "" then before[goImport := goImport] else before
  {
    var xs := ParameterImports(rows[..i + 1], resolve);
    assert xs[..|xs| - 1] == ParameterImports(rows[..i], resolve);
  }

  class Function {
    var DbName: string
    var GoFriendlyName: string
    var Parameters: seq<FunctionParameter>
    var ReturnType: string
    var ReturnGoType: string
    var ReturnNullableType: string
    var Columns: seq<Views.Column>
    var IsReturnVoid: bool
    var IsReturnUserDefined: bool
    var IsReturnASet: bool
    var IsReturnARecord: bool
    var GoTypesToImport: map<string, string>

    /** The `&Function{...}` literal of CollectFunction. */
    constructor (dbName: string, goFriendlyName: string, isSetOf: bool)
      ensures DbName == dbName && GoFriendlyName == goFriendlyName
      ensures IsReturnASet == isSetOf && IsReturnARecord == !isSetOf
      ensures Parameters == [] && Columns == [] && GoTypesToImport == map[]
      ensures ReturnType == "" && ReturnGoType == "" && ReturnNullableType == ""
      ensures !IsReturnVoid && !IsReturnUserDefined
    {
      DbName := dbName;
      GoFriendlyName := goFriendlyName;
      IsReturnASet := isSetOf;
      IsReturnARecord := isSetOf == false;
      Parameters := [];
      ReturnType := "";
      ReturnGoType := "";
      ReturnNullableType := "";
      Columns := [];
      IsReturnVoid := false;
      IsReturnUserDefined := false;
      GoTypesToImport := map[];
    }

    /**
     * The return classification of CollectFunction applied to this
     * function: `keep` is false exactly for a USER-DEFINED return that no
     * table or view matches.
     */
    method SetReturn(routineDataType: string, routineUdtName: string, tables: seq<Relation>, views: seq<Relation>,
                     resolve: (string, bool) -> FuncResolution) returns (keep: bool)
      modifies this`ReturnType, this`ReturnGoType, this`ReturnNullableType, this`Columns
      modifies this`IsReturnVoid, this`IsReturnUserDefined, this`GoTypesToImport
      ensures keep <==> !ClassifyReturn(routineDataType, routineUdtName, tables, views).Unmatched?
      ensures keep ==>
        match ClassifyReturn(routineDataType, routineUdtName, tables, views)
        case UserDefined(r) =>
          IsReturnUserDefined && IsReturnVoid == old(IsReturnVoid) &&
          ReturnType == r.DbName && ReturnGoType == r.GoFriendlyName && Columns == r.Columns &&
          ReturnNullableType == old(ReturnNullableType) && GoTypesToImport == old(GoTypesToImport)
        case Void =>
          IsReturnVoid && IsReturnUserDefined == old(IsReturnUserDefined) &&
          ReturnType == old(ReturnType) && ReturnGoType == old(ReturnGoType) && Columns == old(Columns) &&
          ReturnNullableType == old(ReturnNullableType) && GoTypesToImport == old(GoTypesToImport)
        case Scalar(t) =>
          IsReturnVoid == old(IsReturnVoid) && IsReturnUserDefined == old(IsReturnUserDefined) &&
          ReturnType == t && Columns == old(Columns) &&
          ReturnGoType == resolve(t, true).goType && ReturnNullableType == resolve(t, true).nullableType &&
          GoTypesToImport == AddImports(old(GoTypesToImport), [resolve(t, true).goImport])
        case Unmatched => false
    {
      var kind := ClassifyReturn(routineDataType, routineUdtName, tables, views);
      if routineDataType == "USER-DEFINED" {
        var found := ScanRelations(this, tables, routineUdtName, false);
        found := ScanRelations(this, views, routineUdtName, found);
        ViewsAfterTables(tables, views, routineUdtName);
        if found == false {
          assert kind == Unmatched;
          return false;
        }
        assert kind == UserDefined(LastMatch(tables + views, routineUdtName).value);
        IsReturnUserDefined := true;
      } else if routineDataType == "void" {
        assert kind == Void;
        IsReturnVoid := true;
      } else {
        assert kind == Scalar(routineDataType);
        ReturnType := routineDataType;
        var res := resolve(routineDataType, true);
        if res.goImport != "" {
          GoTypesToImport := GoTypesToImport[res.goImport := res.goImport];
        }
        ReturnGoType := res.goType;
        ReturnNullableType := res.nullableType;
        assert [res.goImport][..0] == [];
      }
      return true;
    }

    /**
     * CollectParameters over the parameter rows, in ordinal order: a
     * parameter is appended only when its type resolves; every non-empty
     * import is added, whether or not the parameter is kept.
     */
    method CollectParameters(rows: seq<ParameterRow>, resolve: (string, bool) -> FuncResolution)
      modifies this`Parameters, this`GoTypesToImport
      ensures Parameters == old(Parameters) + KeptParameters(rows, resolve)
      ensures GoTypesToImport == AddImports(old(GoTypesToImport), ParameterImports(rows, resolve))
    {
      var i := 0;
      while i < |rows|
        invariant 0 <= i <= |rows|
        invariant Parameters == old(Parameters) + KeptParameters(rows[..i], resolve)
        invariant GoTypesToImport == AddImports(old(GoTypesToImport), ParameterImports(rows[..i], resolve))
      {
        var row := rows[i];
        var res := resolve(row.parameterDataType, false);
        if res.goImport != "" {
          GoTypesToImport := GoTypesToImport[res.goImport := res.goImport];
        }
        var parameterDefaultVal := DefaultValueOf(row.parameterDefault);
        var currentParam := FunctionParameter(
          DbName := row.parameterName,
          GoFriendlyName := GetGoFriendlyNameForFunctionParam(row.parameterName),
          DbComments := "",
          Mode := "",
          Type := row.parameterDataType,
          GoType := res.goType,
          GoNullableType := res.nullableType,
          IsOptional := false,
          DefaultValue := parameterDefaultVal);
        assert currentParam == ParameterFromRow(row, resolve);
        KeptStep(old(Parameters), rows, i, resolve);
        ImportStep(old(GoTypesToImport), rows, i, resolve);
        if currentParam.GoType != "" {
          Parameters := Parameters + [currentParam];
        }
        i := i + 1;
      }
      assert rows[..i] == rows;
    }
  }

  /**
   * One of CollectFunction's two scans: every relation named `udtName`
   * overwrites the return fields, so the last one wins; `found` is set once
   * one matches and never cleared.
   */
  method ScanRelations(f: Function, rels: seq<Relation>, udtName: string, foundBefore: bool) returns (found: bool)
    modifies f`ReturnType, f`ReturnGoType, f`Columns
    ensures found <==> foundBefore || LastMatch(rels, udtName).Some?
    ensures LastMatch(rels, udtName).Some? ==>
      var r := LastMatch(rels, udtName).value;
      f.ReturnType == r.DbName && f.ReturnGoType == r.GoFriendlyName && f.Columns == r.Columns
    ensures LastMatch(rels, udtName).None? ==>
      f.ReturnType == old(f.ReturnType) && f.ReturnGoType == old(f.ReturnGoType) && f.Columns == old(f.Columns)
  {
    found := foundBefore;
    var i := 0;
    while i < |rels|
      invariant 0 <= i <= |rels|
      invariant found <==> foundBefore || LastMatch(rels[..i], udtName).Some?
      invariant LastMatch(rels[..i], udtName).Some? ==>
        var r := LastMatch(rels[..i], udtName).value;
        f.ReturnType == r.DbName && f.ReturnGoType == r.GoFriendlyName && f.Columns == r.Columns
      invariant LastMatch(rels[..i], udtName).None? ==>
        f.ReturnType == old(f.ReturnType) && f.ReturnGoType == old(f.ReturnGoType) && f.Columns == old(f.Columns)
    {
      var current := rels[i];
      if current.DbName == udtName {
        found := true;
        f.ReturnType := current.DbName;
        f.ReturnGoType := current.GoFriendlyName;
        f.Columns := current.Columns;
      }
      assert rels[..i + 1][..i] == rels[..i];
      i := i + 1;
    }
    assert rels[..i] == rels;
  }

  /**
   * CollectFunction. No routine row: skipped (null, no error); a failed
   * query: null and an error; a USER-DEFINED return matching no table or
   * view: skipped. Otherwise the function, its return classified and its
   * parameters collected.
   */
  method CollectFunction(
    tables: seq<Relation>, views: seq<Relation>, lookup: RoutineLookup,
    parameterRows: seq<ParameterRow>, resolve: (string, bool) -> FuncResolution)
    returns (f: Function?, failed: bool)
    ensures failed <==> lookup.QueryFailed?
    ensures f == null <==> (!lookup.Routine? ||
      ClassifyReturn(lookup.routineDataType, lookup.routineUdtName, tables, views).Unmatched?)
    ensures f != null ==> fresh(f) && lookup.Routine?
    ensures f != null ==> f.DbName == lookup.routineName && f.GoFriendlyName == GetGoFriendlyNameForFunction(lookup.routineName)
    ensures f != null ==> f.IsReturnASet == lookup.isSetOf && f.IsReturnARecord == !f.IsReturnASet
    ensures f != null ==> f.Parameters == KeptParameters(parameterRows, resolve)
    ensures f != null ==>
      match ClassifyReturn(lookup.routineDataType, lookup.routineUdtName, tables, views)
      case UserDefined(r) =>
        f.IsReturnUserDefined && !f.IsReturnVoid && f.ReturnType == r.DbName &&
        f.ReturnGoType == r.GoFriendlyName && f.Columns == r.Columns && f.ReturnNullableType == "" &&
        f.GoTypesToImport == AddImports(map[], ParameterImports(parameterRows, resolve))
      case Void =>
        f.IsReturnVoid && !f.IsReturnUserDefined && f.ReturnType == "" && f.ReturnGoType == "" &&
        f.Columns == [] && f.GoTypesToImport == AddImports(map[], ParameterImports(parameterRows, resolve))
      case Scalar(t) =>
        !f.IsReturnVoid && !f.IsReturnUserDefined && f.ReturnType == t && f.Columns == [] &&
        f.ReturnGoType == resolve(t, true).goType && f.ReturnNullableType == resolve(t, true).nullableType &&
        f.GoTypesToImport == AddImports(map[], [resolve(t, true).goImport] + ParameterImports(parameterRows, resolve))
      case Unmatched => false
  {
    match lookup
    case NoRows =>
      return null, false;
    case QueryFailed =>
      return null, true;
    case Routine(routineName, routineDataType, routineUdtName, isSetOf) =>
      var goFriendlyName := GetGoFriendlyNameForFunction(routineName);
      var newFunction := new Function(routineName, goFriendlyName, isSetOf);
      var keep := newFunction.SetReturn(routineDataType, routineUdtName, tables, views, resolve);
      if !keep {
        return null, false;
      }
      newFunction.CollectParameters(parameterRows, resolve);
      AddImportsAppend(map[], [resolve(routineDataType, true).goImport], ParameterImports(parameterRows, resolve));
      return newFunction, false;
  }
}
