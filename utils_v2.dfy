/**
 * v2/utils.go: CamelCase and LowerFirstChar. CamelCase finds the maximal
 * runs matching `[0-9A-Za-z]+`, title-cases each run (only its first rune
 * can change), concatenates them and lower-cases the first rune.
 */
module UtilsV2 {
  import opened Text
  import Identifiers

  /** A match of `[0-9A-Za-z]+`. */
  predicate IsRun(w: string) {
    w != [] && forall j :: 0 <= j < |w| ==> IsAlnum(w[j])
  }

  /** Length of the run of letters and digits at the front of `s`. */
  function RunLength(s: string): (n: nat)
    ensures n <= |s|
    ensures forall i :: 0 <= i < n ==> IsAlnum(s[i])
    ensures n < |s| ==> !IsAlnum(s[n])
  {
    if s == [] || !IsAlnum(s[0]) then 0 else 1 + RunLength(s[1..])
  }

  /** All non-overlapping leftmost-longest matches of `[0-9A-Za-z]+`, in order. */
  function Runs(s: string): (rs: seq<string>)
    ensures forall k :: 0 <= k < |rs| ==> IsRun(rs[k])
    decreases |s|
  {
    if s == [] then []
    else if !IsAlnum(s[0]) then Runs(s[1..])
    else
      var n := RunLength(s);
      [s[..n]] + Runs(s[n..])
  }

  /** The letters and digits of `s`, in order. */
  function AlnumOnly(s: string): (r: string)
    ensures |r| <= |s|
    ensures forall i :: 0 <= i < |r| ==> IsAlnum(r[i])
  {
    if s == [] then []
    else if IsAlnum(s[0]) then [s[0]] + AlnumOnly(s[1..])
    else AlnumOnly(s[1..])
  }

  /** LowerFirstChar: the first rune lower-cased, the rest unchanged. */
  function LowerFirstChar(original: string): (r: string)
    ensures |r| == |original|
    ensures original != [] ==> r[0] == ToLower(original[0]) && r[1..] == original[1..]
  {
    if original == "" then "" else [ToLower(original[0])] + original[1..]
  }

  /**
   * CamelCase: the one-pass scan with its first rune lower-cased, so only
   * the letters and digits survive, in order, and the first is never
   * upper-case.
   */
  function CamelCase(original: string): (r: string)
    ensures original != "" ==> r == LowerFirstChar(Scan(false, original))
    ensures Lower(r) == Lower(AlnumOnly(original))
    ensures |r| == |AlnumOnly(original)|
    ensures forall i :: 0 <= i < |r| ==> IsAlnum(r[i])
    ensures r != "" ==> !IsUpper(r[0])
    ensures Runs(original) == [] ==> r == ""
  {
    if original == "" then ""
    else
      CamelOfRunsFacts(original);
      LowerFirstChar(Join(Identifiers.TitleEach(Runs(original)), ""))
  }

  /**
   * A one-pass reference reading: drop every character that is not a
   * letter or digit, upper-case the first one of each run, keep the rest.
   */
  function Scan(inRun: bool, s: string): (r: string)
    decreases |s|
  {
    if s == [] then []
    else if !IsAlnum(s[0]) then Scan(false, s[1..])
    else [if inRun then s[0] else ToUpper(s[0])] + Scan(true, s[1..])
  }

  /** LowerFirstChar changes only the case of a rune and is idempotent. */
  lemma LowerFirstCharFacts(s: string)
    ensures Lower(LowerFirstChar(s)) == Lower(s)
    ensures LowerFirstChar(LowerFirstChar(s)) == LowerFirstChar(s)
    ensures LowerFirstChar(s) != [] ==> !IsUpper(LowerFirstChar(s)[0])
  {
    if s != [] {
      var r := LowerFirstChar(s);
      assert r == [ToLower(s[0])] + s[1..];
      assert s == [s[0]] + s[1..];
      LowerAppend([ToLower(s[0])], s[1..]);
      LowerAppend([s[0]], s[1..]);
    }
  }

  /** Inside a run the scan copies the characters unchanged. */
  lemma {:induction false} ScanInsideRun(s: string, m: nat)
    requires 1 <= m <= |s|
    requires forall i :: 0 <= i < m ==> IsAlnum(s[i])
    ensures Scan(true, s) == s[..m] + Scan(true, s[m..])
    decreases m
  {
    if m > 1 {
      ScanInsideRun(s[1..], m - 1);
      assert s[1..][m - 1..] == s[m..];
      assert s[..m] == [s[0]] + s[1..][..m - 1];
    }
  }

  /** The one-pass reading over a leading run: its first rune upper-cased, the rest copied. */
  lemma ScanOverRun(s: string)
    requires s != [] && IsAlnum(s[0])
    ensures Scan(false, s) == [ToUpper(s[0])] + s[1..RunLength(s)] + Scan(false, s[RunLength(s)..])
  {
    var n := RunLength(s);
    var rest := s[n..];
    // after the run the scan is outside a run again
    assert Scan(true, rest) == Scan(false, rest);
    if n > 1 {
      ScanInsideRun(s[1..], n - 1);
      assert s[1..][n - 1..] == rest;
      assert s[1..][..n - 1] == s[1..n];
    } else {
      assert s[1..] == rest;
    }
  }

  /** The run-by-run reading over a leading run: the run title-cased, then the other runs. */
  lemma TitledRunsOverRun(s: string)
    requires s != [] && IsAlnum(s[0])
    ensures Join(Identifiers.TitleEach(Runs(s)), "")
         == [ToUpper(s[0])] + s[1..RunLength(s)] + Join(Identifiers.TitleEach(Runs(s[RunLength(s)..])), "")
  {
    var n := RunLength(s);
    var others := Identifiers.TitleEach(Runs(s[n..]));
    assert Runs(s) == [s[..n]] + Runs(s[n..]);
    assert Identifiers.TitleEach(Runs(s)) == [Title(s[..n])] + others;
    Identifiers.JoinEmptySepAppend([Title(s[..n])], others);
    assert Join([Title(s[..n])], "") == Title(s[..n]);
    TitleOfAlnumRun(s[..n]);
    assert s[..n][1..] == s[1..n];
  }

  /** The run-by-run definition computes the one-pass reading. */
  lemma {:induction false} TitledRunsAreScan(s: string)
    ensures Join(Identifiers.TitleEach(Runs(s)), "") == Scan(false, s)
    decreases |s|
  {
    if s != [] {
      if !IsAlnum(s[0]) {
        TitledRunsAreScan(s[1..]);
      } else {
        TitledRunsAreScan(s[RunLength(s)..]);
        ScanOverRun(s);
        TitledRunsOverRun(s);
      }
    }
  }

  /** The runs, concatenated, are exactly the letters and digits of the input. */
  lemma {:induction false} RunsCoverAlnum(s: string)
    ensures Join(Runs(s), "") == AlnumOnly(s)
    decreases |s|
  {
    if s != [] {
      if !IsAlnum(s[0]) {
        RunsCoverAlnum(s[1..]);
      } else {
        var n := RunLength(s);
        RunsCoverAlnum(s[n..]);
        Identifiers.JoinEmptySepAppend([s[..n]], Runs(s[n..]));
        AlnumOnlyOfRun(s, n);
      }
    }
  }

  lemma {:induction false} AlnumOnlyOfRun(s: string, n: nat)
    requires n <= |s|
    requires forall i :: 0 <= i < n ==> IsAlnum(s[i])
    ensures AlnumOnly(s) == s[..n] + AlnumOnly(s[n..])
    decreases n
  {
    if n > 0 {
      AlnumOnlyOfRun(s[1..], n - 1);
      assert s[1..][n - 1..] == s[n..];
      assert s[..n] == [s[0]] + s[1..][..n - 1];
    }
  }

  /** A character outside `[0-9A-Za-z]` always ends a run: runs never span it. */
  lemma {:induction false} RunsSplitAtSeparator(a: string, c: char, b: string)
    requires !IsAlnum(c)
    ensures Runs(a + [c] + b) == Runs(a) + Runs(b)
    decreases |a|
  {
    var s := a + [c] + b;
    if a == [] {
      assert s == [c] + b;
      assert s[1..] == b;
    } else if !IsAlnum(a[0]) {
      assert s[1..] == a[1..] + [c] + b;
      RunsSplitAtSeparator(a[1..], c, b);
    } else {
      var n := RunLength(a);
      RunLengthStopsAt(a, c, b);
      assert s[..n] == a[..n];
      assert s[n..] == a[n..] + [c] + b;
      RunsSplitAtSeparator(a[n..], c, b);
    }
  }

  lemma {:induction false} RunLengthStopsAt(a: string, c: char, b: string)
    requires !IsAlnum(c)
    ensures RunLength(a + [c] + b) == RunLength(a)
    decreases |a|
  {
    if a == [] {
      assert (a + [c] + b)[0] == c;
    } else {
      assert (a + [c] + b)[0] == a[0];
      assert (a + [c] + b)[1..] == a[1..] + [c] + b;
      RunLengthStopsAt(a[1..], c, b);
    }
  }

  lemma {:induction false} LowerOfScan(inRun: bool, s: string)
    ensures Lower(Scan(inRun, s)) == Lower(AlnumOnly(s))
    ensures |Scan(inRun, s)| == |AlnumOnly(s)|
    decreases |s|
  {
    if s != [] {
      LowerOfScan(false, s[1..]);
      LowerOfScan(true, s[1..]);
      if IsAlnum(s[0]) {
        var h := if inRun then s[0] else ToUpper(s[0]);
        LowerOfUpper(s[0]);
        LowerAppend([h], Scan(true, s[1..]));
        LowerAppend([s[0]], AlnumOnly(s[1..]));
      }
    }
  }

  /**
   * The title-cased runs, joined and with the first rune lower-cased, keep
   * exactly the letters and digits of the input, in order: only the case
   * of each changes; the first rune is never upper-case; the title-casing
   * follows the one-pass reading; and an input with no letter or digit
   * gives "".
   */
  lemma CamelOfRunsFacts(s: string)
    requires s != ""
    ensures var r := LowerFirstChar(Join(Identifiers.TitleEach(Runs(s)), ""));
      && r == LowerFirstChar(Scan(false, s))
      && Lower(r) == Lower(AlnumOnly(s))
      && |r| == |AlnumOnly(s)|
      && (forall i :: 0 <= i < |r| ==> IsAlnum(r[i]))
      && (r != "" ==> !IsUpper(r[0]))
      && (Runs(s) == [] ==> r == "")
  {
    TitledRunsAreScan(s);
    LowerOfScan(false, s);
    var t := Scan(false, s);
    LowerFirstCharFacts(t);
    ScanIsAlnum(false, s);
    if Runs(s) == [] {
      assert Join(Identifiers.TitleEach(Runs(s)), "") == "";
    }
    var r := LowerFirstChar(Join(Identifiers.TitleEach(Runs(s)), ""));
    forall i | 0 <= i < |r|
      ensures IsAlnum(r[i])
    {
      if i == 0 {
        assert IsAlnum(t[0]);
      } else {
        assert r[i] == t[i];
      }
    }
  }

  lemma {:induction false} ScanIsAlnum(inRun: bool, s: string)
    ensures forall i :: 0 <= i < |Scan(inRun, s)| ==> IsAlnum(Scan(inRun, s)[i])
    decreases |s|
  {
    if s != [] {
      ScanIsAlnum(false, s[1..]);
      ScanIsAlnum(true, s[1..]);
    }
  }
}
