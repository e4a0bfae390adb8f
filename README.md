# pgtogogen core, modelled in Dafny

pgtogogen reads the PostgreSQL catalog (tables, views, materialized views,
stored functions) and generates Go code for them. This project models the
deterministic core of that generator:

- **Type resolvers.** Four generations of the catalog-type to Go-type
  tables: `v2/dataTypesUtils.go` (`DataTypesV2`), `column.go` (`Columns`),
  `dataTypesUtils.go` (`DataTypes`) and the udt-keyed table of `table.go`
  (`Tables`). The first three also decode the catalog's `is_nullable`,
  `nextval(` sequence defaults and the maximum-length sentinel; `table.go`
  decodes only `is_nullable`. The v2 file also renders nullable-wrapper
  snippets.
- **Views (`view.go`, module `Views`).** A `View` class whose methods
  append one `Column` per catalog row and keep the import map. They also
  build the comma-separated column list, the `$1, $2, …` placeholder list
  and the generic `SELECT`.
- **Functions (`function.go`, module `Functions`).** A `Function` class.
  `CollectFunction` classifies the return type: a USER-DEFINED type matched
  against the collected tables and then views (the last match wins), void,
  or a scalar. `CollectParameters` keeps only the parameters whose type
  resolves.
- **Tables (`table.go`, `toolOptions.go`).** The `Table` and `ToolOptions`
  classes, which collect columns per table and tables per catalog listing.
- **Identifiers.** The snake_case to Go-name conversion shared by the four
  `GetGoFriendlyNameFor…` functions (module `Identifiers`), and
  `CamelCase` / `LowerFirstChar` of `v2/utils.go` (module `UtilsV2`).

Shared modules:

- `Text` models the Go library functions the core calls on ASCII text:
  `strings.Title`, `Split`, `Join`, `HasPrefix`, `HasSuffix`, `TrimSuffix`
  and `strconv.Itoa`. It also gives `Entries`, a reader's split of a
  `", "`-separated list.
- `Sql` holds the nullable catalog values.
- `Imports` holds the import-map bookkeeping.
- `Wrappers` holds `Option`.

Catalog answers are inputs. Query rows are sequences of row records; the
routine lookup is a datatype with a "no rows" and a "query failed" case.
The resolvers that `view.go` and `function.go` call are not among the
modelled files, so they are function parameters (`resolve`). A Go nil slice
is an empty sequence, because the code only ever writes these fields with
`append`. A nil map is the empty map.

## Model

| member | source | states |
|---|---|---|
| DataTypesV2.GetGoTypeForColumn | v2/dataTypesUtils.go:71-204 | a Go type is produced exactly for the known names and for `ARRAY` of `_bpchar`; anything else gives three empty strings; a non-nullable column never gets a wrapper; a nullable resolved column always gets one |
| DataTypesV2.TimeImportFollowsTimeType | v2/dataTypesUtils.go:158-200 | the import is `time` exactly when the base type is `time.Time`, which exactly the five date/time names get; otherwise it is empty |
| DataTypesV2.NullabilityOnlyAddsWrapper | v2/dataTypesUtils.go:71-204 | resolving as non-nullable gives the nullable result with the wrapper cleared: nullability changes nothing else |
| DataTypesV2.GetGoTypeNullableType | v2/dataTypesUtils.go:206-235 | the inverse lookup as written: the base type `int16` has no case and gives "" |
| DataTypesV2.InverseLookupMissesInt16 | v2/dataTypesUtils.go:106-107 | a nullable `smallint` resolves to (`int16`, `pgtype.Int2`), but the inverse lookup of `int16` gives "" |
| DataTypesV2.GetGoTypeNullableTypeCorrected | v2/dataTypesUtils.go:206-235 | the corrected inverse lookup agrees with the written one on every base type except `int16` |
| DataTypesV2.CorrectedLookupInvertsResolver | v2/dataTypesUtils.go:206-235 | for every catalog type resolving to a native base type or a plain character type, the corrected inverse lookup returns the wrapper the resolver chose |
| DataTypesV2.GetGoInsertNameForColumn | v2/dataTypesUtils.go:59-65 | the result starts with the given name; it differs from it exactly for the `Numeric` wrapper, which gets `.EmbeddedVal()` appended |
| DataTypesV2.GenerateNullableTypeStructTemplate | v2/dataTypesUtils.go:250-291 | each of the fourteen known wrappers yields Go code starting with `&` (a `pgtype` literal) or `t` (a `toNumeric`/`toPgxNumeric` call); any other wrapper yields the bracketed diagnostic that names it |
| DataTypesV2.ForInsertOnlyAffectsNumeric | v2/dataTypesUtils.go:250-291 | `forInsert` changes the snippet for `Numeric` and for no other wrapper |
| DataTypesV2.GetNullableTypeValueFieldName | v2/dataTypesUtils.go:293-329 | each known wrapper yields a field name, never starting with `[`; any other wrapper yields the bracketed diagnostic that names it |
| DataTypesV2.RenderersCoverResolver | v2/dataTypesUtils.go:71-204 | for every resolvable type, both renderers give real output for its nullable wrapper (not their diagnostic) exactly when the type is neither `uuid` nor `interval` |
| DataTypesV2.GetGoFriendlyNameForColumn | v2/dataTypesUtils.go:32-50 | the shared snake_case conversion: no `_` in the result; lower-cased it equals the name without `_`, lower-cased |
| DataTypesV2.DecodeIsColumnSequence | v2/dataTypesUtils.go:331-342 | true iff the default is not null and starts with `nextval(` |
| DataTypesV2.DecodeNullable | v2/dataTypesUtils.go:344-356 | true iff the text is one of YES, Yes, yes, y, Y, t, T, true, TRUE, True |
| DataTypesV2.DecodeMaxLength | v2/dataTypesUtils.go:358-365 | -1 for a length that is not present, the stored value otherwise |
| Columns.GetGoFriendlyNameForColumn | column.go:65-83 | the shared snake_case conversion; no `_` in the result; only the case of runes changes |
| Columns.GetGoTypeForColumn | column.go:85-107 | a type exactly for the six known names; `timestamp with time zone` gives (`time.Time`, `time`) and is the only name with an import; anything else gives ("", "") |
| Columns.KnownMappings | column.go:87-103 | the six entries: `character varying` and `uuid` to `string`, `integer` to `int`, `boolean` to `bool`, `bigint` to `int64`, each without import |
| Columns.DecodeIsColumnSequence | column.go:109-120 | true iff the default is valid and starts with `nextval(` |
| Columns.DecodeNullable | column.go:122-133 | true iff the text is YES, Yes or yes |
| Columns.DecodeMaxLength | column.go:135-142 | -1 for an invalid length, the stored value otherwise |
| DataTypes.GetGoFriendlyNameForColumn | dataTypesUtils.go:11-29 | no `_` in the result (the rest is ColumnNameFacts) |
| DataTypes.ColumnNameFacts | dataTypesUtils.go:11-29 | the name conversion is the shared snake_case conversion; no `_` survives; only the case of runes changes; doubled `_`s change nothing |
| DataTypes.GetGoTypeForColumn | dataTypesUtils.go:31-53 | a type exactly for the six known names; only `timestamp with time zone` sets an import, to `time`; anything else gives ("", "") |
| DataTypes.KnownMappings | dataTypesUtils.go:31-53 | the six entries of the table, each base type and import |
| DataTypes.DecodeIsColumnSequence | dataTypesUtils.go:55-66 | true iff the default is valid and starts with `nextval(` |
| DataTypes.DecodeNullable | dataTypesUtils.go:68-79 | true iff the text is YES, Yes or yes |
| DataTypes.DecodeMaxLength | dataTypesUtils.go:81-88 | -1 for an invalid length, the 32-bit value otherwise |
| Tables.GetGoFriendlyNameForColumn | table.go:120-138 | the shared snake_case conversion; no `_` in the result; only the case of runes changes |
| Tables.GetGoTypeForColumn | table.go:140-152 | `varchar` gives `string`, `int4` gives `int`, every other udt name gives "" |
| Tables.DecodeNullable | table.go:154-165 | true iff the text is YES, Yes or yes |
| Tables.ColumnFromRow | table.go:76-87 | the column copies name, udt name and default; it is nullable iff `is_nullable` is YES/Yes/yes; its Go type is the udt table's answer for the row's udt name, non-empty exactly for `varchar` and `int4`; its Go name is the snake_case conversion, without `_`; its comment is empty |
| Tables.ColumnsFromRowsAppend | table.go:69-91 | collecting two batches of rows is collecting their concatenation |
| Tables.CollectedColumnAt | table.go:76-89 | the column appended for row i sits after the earlier columns, which are unchanged, and carries row i's name, type, nullability and Go type |
| Tables.Table.constructor | table.go:17-24 | a table starts with its name, its Go name and no columns |
| Tables.Table.CollectColumns | table.go:56-99 | the columns become the old columns followed by one column per row, in row order |
| Options.GetGoFriendlyNameForTable | toolOptions.go:131-149 | the shared snake_case conversion; a name without `_` is title-cased whole; no `_` in the result |
| Options.TableNameFacts | toolOptions.go:138-148 | lower-cased, the result is the name without `_` lower-cased, of the same length; `a__b` converts like `a_b` |
| Options.TableFromName | toolOptions.go:103-112 | a collected table carries its catalog name, its Go name and exactly the columns collected from its catalog rows, one per row in order, each with its row's name and udt-resolved Go type |
| Options.ToolOptions.constructor | toolOptions.go:12-27 | no tables yet |
| Options.ToolOptions.CollectTables | toolOptions.go:85-127 | the tables become the old tables followed by one collected table per name, in order |
| Identifiers.FriendlyNameFacts | toolOptions.go:131-149 | the shortcut for names without `_` agrees with split, title-case and concatenate; no `_` in the result; lower-cased it equals the name without `_`, lower-cased; same length |
| Identifiers.EmptyPiecesVanish | toolOptions.go:138-148 | empty pieces left by a doubled `_` contribute nothing |
| Identifiers.SplitAppendUnderscore | toolOptions.go:138 | splitting at an `_` gives the pieces of both sides in order |
| UtilsV2.RunLength | v2/utils.go:11 | the length of the maximal letter-and-digit run at the front |
| UtilsV2.Runs | v2/utils.go:11-19 | every match of `[0-9A-Za-z]+` is a non-empty run of letters and digits |
| UtilsV2.RunsCoverAlnum | v2/utils.go:11-19 | the matches concatenated are exactly the letters and digits of the input, in order |
| UtilsV2.RunsSplitAtSeparator | v2/utils.go:11-19 | a character outside `[0-9A-Za-z]` always ends a match |
| UtilsV2.LowerFirstChar | v2/utils.go:29-36 | same length; the first rune lower-cased, the tail unchanged |
| UtilsV2.LowerFirstCharFacts | v2/utils.go:29-36 | only the case changes; idempotent; the first rune is never upper-case |
| UtilsV2.TitledRunsAreScan | v2/utils.go:19-25 | title-casing each match and joining them is the one-pass scan that drops other characters and upper-cases the first of each run |
| UtilsV2.CamelCase | v2/utils.go:13-27 | equals the one-pass scan with the first rune lower-cased; "" gives ""; lower-cased the result is the input's letters and digits lower-cased, with the same count; every character is a letter or digit; the first is never upper-case; no match gives "" |
| Imports.AddImports | view.go:72-78 | adding imports never removes a key the map had |
| Imports.AddImportsFacts | view.go:72-78 | after adding imports, a key is present iff it was before or is a non-empty import; entries already there keep their value; a self-keyed map stays self-keyed |
| Imports.AddImportsAppend | function.go:161-175 | adding two batches of imports is adding their concatenation |
| Imports.AddImportsIdempotent | view.go:197-204 | adding the same imports again changes nothing |
| Views.ColumnFromRow | view.go:80-98 | a materialized view's column is never a sequence; the key flags are always false; the Go type is the resolver's answer for the row's type and decoded nullability |
| Views.ColumnFromRowFacts | view.go:80-98 | the column copies the row; Nullable iff YES/Yes/yes; max length -1 when absent; IsSequence iff an ordinary view's default starts with `nextval(`; the key flags are false; the Go name is the snake_case conversion; the Go types come from the resolver for the decoded nullability |
| Views.MaterializedColumnsNeverNullable | view.go:124-166 | with the decoders of dataTypesUtils.go, the materialized query's `true`/`false` is never decoded as nullable, so such a column is never nullable or a sequence and resolves as non-nullable |
| Views.RowStep | view.go:63-100 | one more row appends its column and adds its import, if any |
| Views.ListPrefixStep | view.go:246-258 | one more loop step writes the next name, followed by `", "` unless it is the last |
| Views.ListPrefixComplete | view.go:246-258 | after the last step the buffer is the names joined by `", "` |
| Views.NoTrailingSeparator | view.go:264-266 | when no name contains `,` and the last is not empty, the trim removes nothing |
| Views.ColumnListRoundTrip | view.go:239-269 | an empty view gives ""; otherwise the list reads back as exactly the names, in order |
| Views.EmptyLastNameAbsorbed | view.go:264-266 | an empty last name leaves a trailing `", "` that the trim removes, so that name vanishes from the list |
| Views.PlaceholderFacts | view.go:288 | placeholder i is `$` followed by the numeral of i+1, never empty and without `,` |
| Views.ParamListRoundTrip | view.go:274-312 | no columns give ""; otherwise the list splits into exactly the placeholders, n of them, and entry i reads back as `$` and the number i+1 |
| Views.ListsAlign | view.go:246-301 | the column list and the placeholder list have one entry per column each |
| Views.View.constructor | view.go:17-47 | a view starts with no columns, no imports and empty strings |
| Views.View.GetSqlFriendlyColumnList | view.go:239-269 | the names of all columns in order, joined by `", "`, trailing `", "` trimmed |
| Views.View.GetSqlFriendlyParameters | view.go:274-312 | the placeholders `$1` … `$n` for the n columns, joined by `", "` |
| Views.View.AddGoTypeToImport | view.go:197-204 | the import maps to itself, nothing else changes, and a self-keyed map stays self-keyed |
| Views.View.CreateGenericQueries | view.go:206-233 | with columns, the query is `SELECT ` + column list + ` FROM ` + name + ` `; without, it is unchanged |
| Views.View.AppendRows | view.go:63-102 | one column per row appended in row order after the untouched old columns; every non-empty import added |
| Views.View.CollectRows | view.go:63-112 | as AppendRows; then both lists are recomputed iff the view has columns, else left unchanged |
| Views.View.CollectColumns | view.go:49-116 | CollectRows for an ordinary view |
| Views.View.CollectMaterializedViewColumns | view.go:118-195 | CollectRows with IsSequence always false |
| Functions.GetGoFriendlyNameForFunction | function.go:315-333 | no `_` in the result (the rest is FunctionNameFacts) |
| Functions.GetGoFriendlyNameForFunctionParam | function.go:335-353 | no `_` in the result (the rest is FunctionNameFacts) |
| Functions.FunctionNameFacts | function.go:315-353 | both conversions are the shared snake_case conversion; a name without `_` is title-cased whole; no `_` in the result; only the case of runes changes; `a__b` converts like `a_b` |
| Functions.LastMatchFacts | function.go:127-142 | a match exists iff some relation has the name, and it is the last such relation |
| Functions.ViewsAfterTables | function.go:127-142 | a matching view wins over every table; with no matching view the last matching table is taken |
| Functions.ClassifyReturn | function.go:123-171 | Void iff `void`; Scalar with the catalog type iff neither `USER-DEFINED` nor `void`; otherwise UserDefined with a relation of the UDT name, or Unmatched |
| Functions.ClassifyUserDefined | function.go:123-147 | Unmatched iff no table and no view has the UDT name; a matching view wins; otherwise the last matching table |
| Functions.DefaultValueOf | function.go:218-221 | the default text when present (and non-empty), "" otherwise |
| Functions.ParameterFromRow | function.go:224-232 | name, type and default copied; Go name by the snake_case conversion; Go types from the resolver with nullable false; the scanned mode is not stored |
| Functions.KeptParameters | function.go:224-236 | never more parameters than rows |
| Functions.KeptParametersSound | function.go:234-236 | no more parameters than rows; every kept one has a Go type and comes from some row |
| Functions.ResolvedParametersKept | function.go:234-236 | a row whose type resolves is kept |
| Functions.KeptParametersAppend | function.go:203-238 | filtering two batches is filtering their concatenation |
| Functions.AllResolvedAllKept | function.go:203-238 | when every type resolves, every parameter is kept, in row order |
| Functions.KeptStep | function.go:224-236 | one more row appends its parameter exactly when its Go type is non-empty |
| Functions.ImportStep | function.go:209-216 | one more row adds its non-empty import, whether or not the parameter is kept |
| Functions.Function.constructor | function.go:112-120 | name, Go name, set-ness and IsReturnARecord = not IsReturnASet; everything else empty or false |
| Functions.Function.SetReturn | function.go:123-172 | keeps the function iff the return is not an unmatched USER-DEFINED type; per kind the fields set as classified and the rest unchanged |
| Functions.Function.CollectParameters | function.go:181-246 | the parameters become the old ones followed by the kept ones; every non-empty import is added |
| Functions.ScanRelations | function.go:127-142 | after a scan the return fields hold the last relation of the name, or are unchanged if none; `found` is set iff one matched or it was already set |
| Functions.CollectFunction | function.go:69-179 | no rows: null, no error; failed query: null and error; unmatched USER-DEFINED: null; otherwise a fresh function with its name, classified return, kept parameters and imports |
| Text.JoinSplit | toolOptions.go:138-148 | joining the `_`-pieces with `_` gives the name back |
| Text.AtoiItoa | view.go:288 | the decimal numeral of a number reads back as that number |
| Text.EntriesOfJoin | view.go:246-258 | splitting a `", "`-joined list of entries without `,` gives the entries back |

## Left out

- Catalog access: `Query`, `QueryRow`, `Scan` and `rows.Err` are not modelled. Their results are inputs: row sequences, and the routine lookup with its "no rows" and "query failed" cases. A `log.Fatal` on a query or scan error is not modelled, because the model has no failing query inside a loop.
- `ToolOptions.InitDatabase`, `ToolOptions.Generate`, the connection pool and the option fields other than `Tables`: these are connection setup and driving glue.
- The resolvers that view.go and function.go call (two arguments; four and three results) are not part of this model. They are the `resolve` parameters.
- Template rendering and file writing: `GenerateViewStruct`, `GenerateSelectFunctions`, `WriteToFile`, `WriteToCustomFile`, `generateAndAppendTemplate`, `Function.Generate`, `WriteToBuffer`, `generateFunctionFilePrefix`, `Table.GenerateTableStruct`, `Column.GeneratePKGetter` and `FileExists`. These are file I/O and text/template execution.
- The `ConnectionPool`, `Options` and `GeneratedTemplate` fields, and the insert-query fields of `View`, which nothing modelled writes.
- Views decoders: the `Views` module assumes view.go is built with the decoders of dataTypesUtils.go (`DecodeNullable`, `DecodeMaxLength`, `DecodeIsColumnSequence`, `GetGoFriendlyNameForColumn`), whose argument types match view.go's calls. That file's resolver takes one argument, whereas view.go:70 calls a two-argument one, so the version view.go was built against is not part of this model. With the v2 decoders instead, a materialized column whose `is_nullable` is `true` would be nullable.
- CollectFunction: the `NoRows` lookup stands for the query reporting database/sql's `sql.ErrNoRows`, which function.go:103 tests for. The query runs on a pgx pool, and the repository's own templates use `pgx.ErrNoRows` (templatesBase.go:61). The driver is not part of this model, so whether an empty result reaches the skip branch or the error branch (`QueryFailed`) is not settled here.
- `IsReturnTable` and `IsReturnView` of `Function`, which CollectFunction never sets.
- Unicode: names are modelled on ASCII. `strings.Title`, `bytes.Title` and `unicode.ToLower` on other runes are not modelled; such runes are left unchanged and never separate words.
- The catalog rows of `function.go` carry tables and views as one `Relation` shape (name, Go name, columns). The generations of the source disagree on the table struct's field names.

Behaviour of the code that a reader might not expect, modelled as written:

- The view column list never drops sequence columns, although the comment above `getSqlFriendlyColumnList` says it may. Its trailing-separator trim therefore matters only when the joined list itself ends in `", "`: when the last name is empty (`Views.EmptyLastNameAbsorbed`) or itself ends in `", "`.
- A scalar return type that does not resolve still keeps the function, with an empty Go type.
- A parameter's scanned mode is never stored: `Mode` is always "".
- Materialized-view columns report `is_nullable` as `true`/`false`. The decoder of dataTypesUtils.go, which the `Views` module uses, does not recognise either, so with it they are never nullable (`Views.MaterializedColumnsNeverNullable`). The v2 decoder accepts `true` (v2/dataTypesUtils.go:344-356); see the `Views` line under "## Left out".
- The resolver maps `uuid` and `interval` to wrappers that the snippet renderers do not know (`DataTypesV2.RenderersCoverResolver`).

## Findings

| source | as written | input that shows it | evidently intended | confidence | as-written member | corrected member |
|---|---|---|---|---|---|---|
| v2/dataTypesUtils.go:216-217 | the inverse lookup lists the catalog names `int2`/`smallint`, but it is keyed by Go base type, and the resolver gives those names the base type `int16` (v2/dataTypesUtils.go:106-107) | `GetGoTypeNullableType("int16")` returns "" although a nullable `smallint` column resolves to `pgtype.Int2` | `int16` maps to `pgtype.Int2` | medium, not executed | DataTypesV2.InverseLookupMissesInt16 | DataTypesV2.CorrectedLookupInvertsResolver |
