/**
 * The snake_case to Go-name conversion shared, word for word, by
 * GetGoFriendlyNameForColumn, GetGoFriendlyNameForTable,
 * GetGoFriendlyNameForFunction and GetGoFriendlyNameForFunctionParam:
 * a name without `_` is title-cased whole; otherwise it is split on `_`,
 * each piece is title-cased and the pieces are concatenated.
 */
module Identifiers {
  import opened Text

  function TitleEach(parts: seq<string>): seq<string> {
    seq(|parts|, i requires 0 <= i < |parts| => Title(parts[i]))
  }

  /** The general form: title-cased `_`-pieces, concatenated in order. */
  function SnakeToGo(name: string): string {
    Join(TitleEach(Split(name, '_')), "")
  }

  /** The form the source computes, with its shortcut for names without `_`. */
  function FriendlyName(name: string): string {
    if '_' !in name then Title(name) else Join(TitleEach(Split(name, '_')), "")
  }

  lemma {:induction false} SplitWithoutSeparator(s: string, c: char)
    requires c !in s
    ensures Split(s, c) == [s]
  {
    if s != [] {
      assert c !in s[1..] by {
        forall x | x in s[1..] ensures x != c { assert x in s; }
      }
      SplitWithoutSeparator(s[1..], c);
      assert [s[0]] + s[1..] == s;
    }
  }

  lemma TitleKeepsUnderscoreOut(s: string)
    requires '_' !in s
    ensures '_' !in Title(s)
  {
    var t := Title(s);
    forall i | 0 <= i < |t|
      ensures t[i] != '_'
    {
      TitleAt(s, i);
    }
  }

  /**
   * The shortcut agrees with the general form; the result never contains
   * `_`; and lower-cased it is the input without its `_`s lower-cased, so
   * only the case of runes changes and nothing else is added or lost.
   */
  lemma FriendlyNameFacts(name: string)
    ensures FriendlyName(name) == SnakeToGo(name)
    ensures '_' !in SnakeToGo(name)
    ensures Lower(SnakeToGo(name)) == Lower(Remove(name, '_'))
    ensures |SnakeToGo(name)| == |Remove(name, '_')|
  {
    var parts := Split(name, '_');
    var titled := TitleEach(parts);
    if '_' !in name {
      SplitWithoutSeparator(name, '_');
      assert titled == [Title(name)];
    }
    SplitPiecesExclude(name, '_');
    forall i | 0 <= i < |titled|
      ensures '_' !in titled[i]
    {
      TitleKeepsUnderscoreOut(parts[i]);
    }
    JoinExcludes(titled, "", '_');
    LowerOfJoin(titled);
    LowerOfJoin(parts);
    forall i | 0 <= i < |parts|
      ensures Lower(titled[i]) == Lower(parts[i])
    {
      LowerOfTitle(parts[i]);
    }
    assert seq(|titled|, i requires 0 <= i < |titled| => Lower(titled[i]))
        == seq(|parts|, i requires 0 <= i < |parts| => Lower(parts[i]));
    ConcatSplit(name, '_');
  }

  /** Pieces left empty by `__`, or by a leading or trailing `_`, contribute nothing. */
  lemma {:induction false} EmptyPiecesVanish(a: string, b: string)
    ensures SnakeToGo(a + "_" + b) == SnakeToGo(a + "__" + b)
  {
    assert a + "__" + b == a + "_" + ("_" + b);
    SplitAppendUnderscore(a, b);
    SplitAppendUnderscore(a, "_" + b);
    SplitLeadingUnderscore(b);
    var pa := Split(a, '_');
    var pb := Split(b, '_');
    TitleEachAppend(pa, pb);
    TitleEachAppend(pa, [""] + pb);
    TitleEachAppend([""], pb);
    assert TitleEach([""]) == [""];
    JoinEmptySepAppend(TitleEach(pa), TitleEach(pb));
    JoinEmptySepAppend(TitleEach(pa), [""] + TitleEach(pb));
    JoinEmptySepAppend([""], TitleEach(pb));
  }

  /** Splitting `a + "_" + b` gives the pieces of `a` followed by those of `b`. */
  lemma {:induction false} SplitAppendUnderscore(a: string, b: string)
    ensures Split(a + "_" + b, '_') == Split(a, '_') + Split(b, '_')
    decreases |a|
  {
    var s := a + "_" + b;
    if a == [] {
      assert s[1..] == b;
    } else {
      assert s[0] == a[0];
      assert s[1..] == a[1..] + "_" + b;
      SplitAppendUnderscore(a[1..], b);
      if a[0] != '_' {
        ExtendFirstPiece(a[0], Split(a[1..], '_'), Split(b, '_'));
      }
    }
  }

  /** A rune joined to the first piece of `ra + rb` lands in the first piece of `ra`. */
  lemma ExtendFirstPiece(h: char, ra: seq<string>, rb: seq<string>)
    requires |ra| >= 1
    ensures [[h] + (ra + rb)[0]] + (ra + rb)[1..] == ([[h] + ra[0]] + ra[1..]) + rb
  {
    assert (ra + rb)[1..] == ra[1..] + rb;
  }

  lemma SplitLeadingUnderscore(b: string)
    ensures Split("_" + b, '_') == [""] + Split(b, '_')
  {
    assert ("_" + b)[1..] == b;
  }

  lemma TitleEachAppend(xs: seq<string>, ys: seq<string>)
    ensures TitleEach(xs + ys) == TitleEach(xs) + TitleEach(ys)
  {
  }

  lemma {:induction false} JoinEmptySepAppend(xs: seq<string>, ys: seq<string>)
    ensures Join(xs + ys, "") == Join(xs, "") + Join(ys, "")
  {
    if xs == [] {
      assert xs + ys == ys;
    } else if |xs| == 1 {
      if ys != [] {
        assert xs + ys == [xs[0]] + ys;
        assert (xs + ys)[1..] == ys;
      }
    } else {
      assert (xs + ys)[1..] == xs[1..] + ys;
      JoinEmptySepAppend(xs[1..], ys);
    }
  }
}
