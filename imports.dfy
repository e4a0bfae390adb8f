/**
 * The import sets of view.go and function.go: a Go map from package path
 * to itself, filled row by row with every non-empty import the type
 * resolver asks for (a nil map is the empty map here).
 */
module Imports {
  /** Every package maps to itself. */
  predicate SelfKeyed(m: map<string, string>) {
    forall k :: k in m ==> m[k] == k
  }

  /** The map after the imports, in order; empty ones are skipped. */
  function AddImports(m: map<string, string>, imports: seq<string>): (r: map<string, string>)
    ensures m.Keys <= r.Keys
  {
    if imports == [] then m
    else
      var before := AddImports(m, imports[..|imports| - 1]);
      var goImport := imports[|imports| - 1];
      if goImport != "" then before[goImport := goImport] else before
  }

  /**
   * The map gains exactly the non-empty imports, keeps every entry it had,
   * stays self-keyed, and adding the same imports again changes nothing.
   */
  lemma {:induction false} AddImportsFacts(m: map<string, string>, imports: seq<string>, k: string)
    ensures k in AddImports(m, imports) <==> k in m || (k != "" && k in imports)
    ensures SelfKeyed(m) ==> SelfKeyed(AddImports(m, imports))
    ensures SelfKeyed(m) && k in m ==> AddImports(m, imports)[k] == m[k]
  {
    if imports != [] {
      var init := imports[..|imports| - 1];
      AddImportsFacts(m, init, k);
      assert imports == init + [imports[|imports| - 1]];
    }
  }

  /** Collecting in two batches is collecting once. */
  lemma {:induction false} AddImportsAppend(m: map<string, string>, xs: seq<string>, ys: seq<string>)
    ensures AddImports(m, xs + ys) == AddImports(AddImports(m, xs), ys)
  {
    if ys != [] {
      assert (xs + ys)[..|xs + ys| - 1] == xs + ys[..|ys| - 1];
      AddImportsAppend(m, xs, ys[..|ys| - 1]);
    } else {
      assert xs + ys == xs;
    }
  }

  /** Once the imports are in a self-keyed map, adding them again changes nothing. */
  lemma AddImportsIdempotent(m: map<string, string>, imports: seq<string>)
    requires SelfKeyed(m)
    ensures AddImports(AddImports(m, imports), imports) == AddImports(m, imports)
  {
    var once := AddImports(m, imports);
    var twice := AddImports(once, imports);
    forall k
      ensures k in twice <==> k in once
      ensures k in once ==> twice[k] == once[k]
    {
      AddImportsFacts(m, imports, k);
      AddImportsFacts(once, imports, k);
    }
  }
}
