/**
 * The parts of Go's `strings`, `bytes` and `strconv` packages that the
 * generator relies on, over `string` (a sequence of runes). Character
 * classes and case mappings are those of ASCII; see README for what is
 * left out of Unicode.
 */
module Text {

  predicate IsDigit(c: char) { '0' <= c <= '9' }
  predicate IsLower(c: char) { 'a' <= c <= 'z' }
  predicate IsUpper(c: char) { 'A' <= c <= 'Z' }

  /** The class `[0-9A-Za-z]`. */
  predicate IsAlnum(c: char) { IsDigit(c) || IsLower(c) || IsUpper(c) }

  /** `unicode.ToTitle` / `unicode.ToUpper` on ASCII. */
  function ToUpper(c: char): (u: char)
    ensures IsLower(c) ==> IsUpper(u)
    ensures !IsLower(c) ==> u == c
  {
    if IsLower(c) then (c as int - 32) as char else c
  }

  /** `unicode.ToLower` on ASCII. */
  function ToLower(c: char): (l: char)
    ensures IsUpper(c) ==> IsLower(l)
    ensures !IsUpper(c) ==> l == c
  {
    if IsUpper(c) then (c as int + 32) as char else c
  }

  /** Upper-casing never changes what a character lower-cases to. */
  lemma LowerOfUpper(c: char)
    ensures ToLower(ToUpper(c)) == ToLower(c)
  {
  }

  /**
   * `isSeparator` of Go's `strings.Title`: an ASCII character other than a
   * letter, a digit or `_` separates words.
   */
  predicate IsSeparator(c: char) {
    c as int <= 0x7F && !IsAlnum(c) && c != '_'
  }

  /**
   * `strings.Title` walks the string remembering the previous rune (a space
   * before the first one) and title-cases every rune that follows a
   * separator.
   */
  function TitleAfter(prev: char, s: string): (r: string)
    ensures |r| == |s|
    decreases |s|
  {
    if s == [] then []
    else [if IsSeparator(prev) then ToUpper(s[0]) else s[0]] + TitleAfter(s[0], s[1..])
  }

  function Title(s: string): string {
    TitleAfter(' ', s)
  }

  lemma {:induction false} TitleAfterAt(prev: char, s: string, i: nat)
    requires i < |s|
    ensures TitleAfter(prev, s)[i] ==
      if IsSeparator(if i == 0 then prev else s[i - 1]) then ToUpper(s[i]) else s[i]
    decreases |s|
  {
    if i > 0 {
      TitleAfterAt(s[0], s[1..], i - 1);
    }
  }

  /**
   * Character by character, `Title` upper-cases exactly the runes at the
   * start of the string or right after a separator.
   */
  lemma TitleAt(s: string, i: nat)
    requires i < |s|
    ensures |Title(s)| == |s|
    ensures Title(s)[i] == if i == 0 || IsSeparator(s[i - 1]) then ToUpper(s[i]) else s[i]
  {
    TitleAfterAt(' ', s, i);
  }

  /** On a run of letters and digits only the first rune can change. */
  lemma TitleOfAlnumRun(s: string)
    requires forall i :: 0 <= i < |s| ==> IsAlnum(s[i])
    ensures s == [] ==> Title(s) == []
    ensures s != [] ==> Title(s) == [ToUpper(s[0])] + s[1..]
  {
    if s != [] {
      var t := Title(s);
      forall i | 0 <= i < |s|
        ensures t[i] == ([ToUpper(s[0])] + s[1..])[i]
      {
        TitleAt(s, i);
      }
    }
  }

  /** Lower-casing, rune by rune. */
  function Lower(s: string): (r: string)
    ensures |r| == |s|
  {
    if s == [] then [] else [ToLower(s[0])] + Lower(s[1..])
  }

  lemma {:induction false} LowerAt(s: string, i: nat)
    requires i < |s|
    ensures Lower(s)[i] == ToLower(s[i])
  {
    if i > 0 {
      LowerAt(s[1..], i - 1);
    }
  }

  lemma {:induction false} LowerAppend(a: string, b: string)
    ensures Lower(a + b) == Lower(a) + Lower(b)
  {
    if a == [] {
      assert a + b == b;
    } else {
      assert (a + b)[0] == a[0];
      assert (a + b)[1..] == a[1..] + b;
      LowerAppend(a[1..], b);
    }
  }

  /** Title-casing only changes case: lower-cased, the result is the input lower-cased. */
  lemma {:induction false} LowerOfTitleAfter(prev: char, s: string)
    ensures Lower(TitleAfter(prev, s)) == Lower(s)
    decreases |s|
  {
    if s != [] {
      LowerOfUpper(s[0]);
      LowerOfTitleAfter(s[0], s[1..]);
    }
  }

  lemma LowerOfTitle(s: string)
    ensures Lower(Title(s)) == Lower(s)
  {
    LowerOfTitleAfter(' ', s);
  }

  /** `strings.HasPrefix`. */
  predicate HasPrefix(s: string, prefix: string) {
    |prefix| <= |s| && s[..|prefix|] == prefix
  }

  /** `strings.HasSuffix`. */
  predicate HasSuffix(s: string, suffix: string) {
    |suffix| <= |s| && s[|s| - |suffix|..] == suffix
  }

  /** `strings.TrimSuffix`: drops one copy of the suffix if it is there. */
  function TrimSuffix(s: string, suffix: string): (r: string)
    ensures HasSuffix(s, suffix) ==> r + suffix == s
    ensures !HasSuffix(s, suffix) ==> r == s
  {
    if HasSuffix(s, suffix) then s[..|s| - |suffix|] else s
  }

  /** `strings.Join`: the elements in order, one separator between neighbours. */
  function Join(xs: seq<string>, sep: string): string {
    if xs == [] then ""
    else if |xs| == 1 then xs[0]
    else xs[0] + sep + Join(xs[1..], sep)
  }

  /** Appending an element to a non-empty list appends a separator and the element. */
  lemma {:induction false} JoinSnoc(xs: seq<string>, y: string, sep: string)
    requires xs != []
    ensures Join(xs + [y], sep) == Join(xs, sep) + sep + y
  {
    if |xs| > 1 {
      assert (xs + [y])[1..] == xs[1..] + [y];
      JoinSnoc(xs[1..], y, sep);
    }
  }

  /** A rune that occurs neither in the elements nor in the separator does not occur in the join. */
  lemma {:induction false} JoinExcludes(xs: seq<string>, sep: string, c: char)
    requires forall i :: 0 <= i < |xs| ==> c !in xs[i]
    requires c !in sep
    ensures c !in Join(xs, sep)
  {
    if |xs| > 1 {
      JoinExcludes(xs[1..], sep, c);
    }
  }

  /** Lower-casing a concatenation lower-cases each piece. */
  lemma {:induction false} LowerOfJoin(xs: seq<string>)
    ensures Lower(Join(xs, "")) == Join(seq(|xs|, i requires 0 <= i < |xs| => Lower(xs[i])), "")
  {
    var ls := seq(|xs|, i requires 0 <= i < |xs| => Lower(xs[i]));
    if |xs| > 1 {
      var j := Join(xs[1..], "");
      assert xs[0] + "" == xs[0];
      assert Join(xs, "") == xs[0] + j;
      LowerAppend(xs[0], j);
      LowerOfJoin(xs[1..]);
      assert ls[1..] == seq(|xs[1..]|, i requires 0 <= i < |xs[1..]| => Lower(xs[1..][i]));
      assert ls[0] + "" == ls[0];
      assert Join(ls, "") == ls[0] + Join(ls[1..], "");
    }
  }

  /**
   * `strings.Split(s, string(c))`: the pieces between occurrences of `c`,
   * always at least one.
   */
  function Split(s: string, c: char): (parts: seq<string>)
    ensures |parts| >= 1
  {
    if s == [] then [""]
    else
      var rest := Split(s[1..], c);
      if s[0] == c then [""] + rest
      else [[s[0]] + rest[0]] + rest[1..]
  }

  /** No piece contains the separator. */
  lemma {:induction false} SplitPiecesExclude(s: string, c: char)
    ensures forall i :: 0 <= i < |Split(s, c)| ==> c !in Split(s, c)[i]
  {
    if s != [] {
      SplitPiecesExclude(s[1..], c);
    }
  }

  /** Joining the pieces with the separator gives the input back. */
  lemma {:induction false} JoinSplit(s: string, c: char)
    ensures Join(Split(s, c), [c]) == s
  {
    if s != [] {
      var rest := Split(s[1..], c);
      JoinSplit(s[1..], c);
      if s[0] == c {
        assert ([""] + rest)[1..] == rest;
      } else if |rest| > 1 {
        var parts := [[s[0]] + rest[0]] + rest[1..];
        assert parts[1..] == rest[1..];
      }
    }
  }

  /** `s` without any occurrence of `c`. */
  function Remove(s: string, c: char): (r: string)
    ensures c !in r
  {
    if s == [] then []
    else if s[0] == c then Remove(s[1..], c)
    else [s[0]] + Remove(s[1..], c)
  }

  /** Concatenating the pieces of a split removes the separators. */
  lemma {:induction false} ConcatSplit(s: string, c: char)
    ensures Join(Split(s, c), "") == Remove(s, c)
  {
    if s != [] {
      var rest := Split(s[1..], c);
      ConcatSplit(s[1..], c);
      if s[0] == c {
        assert ([""] + rest)[1..] == rest;
      } else if |rest| > 1 {
        var parts := [[s[0]] + rest[0]] + rest[1..];
        assert parts[1..] == rest[1..];
      }
    }
  }

  /** The decimal digit for `d`. */
  function DigitChar(d: nat): (c: char)
    requires d < 10
    ensures IsDigit(c)
  {
    ('0' as int + d) as char
  }

  /**
   * `strconv.Itoa` on a natural number: decimal digits, most significant
   * first, no leading zero.
   */
  function Itoa(n: nat): (s: string)
    ensures |s| >= 1
    ensures forall i :: 0 <= i < |s| ==> IsDigit(s[i])
    ensures n >= 10 ==> s[0] != '0'
  {
    if n < 10 then [DigitChar(n)] else Itoa(n / 10) + [DigitChar(n % 10)]
  }

  /** Reads a string of decimal digits back as a number. */
  function Atoi(s: string): nat
    requires forall i :: 0 <= i < |s| ==> IsDigit(s[i])
  {
    if s == [] then 0
    else
      assert IsDigit(s[|s| - 1]);
      Atoi(s[..|s| - 1]) * 10 + (s[|s| - 1] as int - '0' as int)
  }

  /** `Itoa` loses nothing: reading its digits back gives the number. */
  lemma {:induction false} AtoiItoa(n: nat)
    ensures Atoi(Itoa(n)) == n
  {
    if n >= 10 {
      var s := Itoa(n);
      assert s[..|s| - 1] == Itoa(n / 10);
      AtoiItoa(n / 10);
    }
  }

  /** The position of the first `", "` in `s`, if there is one. */
  function FirstSeparator(s: string): (k: nat)
    ensures k <= |s|
    ensures k + 2 <= |s| ==> s[k] == ',' && s[k + 1] == ' '
    decreases |s|
  {
    if |s| < 2 then |s|
    else if s[0] == ',' && s[1] == ' ' then 0
    else
      var k := FirstSeparator(s[1..]);
      if k + 2 <= |s| - 1 then k + 1 else |s|
  }

  /**
   * Splits a list rendered with `", "` back into its entries: the reader's
   * view of a joined column or placeholder list.
   */
  function Entries(s: string): (es: seq<string>)
    ensures |es| >= 1
    decreases |s|
  {
    var k := FirstSeparator(s);
    if k + 2 <= |s| then [s[..k]] + Entries(s[k + 2..]) else [s]
  }

  lemma {:induction false} FirstSeparatorAfter(a: string, b: string)
    requires ',' !in a
    ensures FirstSeparator(a + ", " + b) == |a|
  {
    if a != [] {
      assert (a + ", " + b)[1..] == a[1..] + ", " + b;
      FirstSeparatorAfter(a[1..], b);
    }
  }

  lemma {:induction false} NoSeparatorFound(s: string)
    requires ',' !in s
    ensures FirstSeparator(s) == |s|
  {
    if |s| >= 2 {
      NoSeparatorFound(s[1..]);
    }
  }

  /** Entries undoes Join: each entry comes back in order, none is gained or lost. */
  lemma {:induction false} EntriesOfJoin(xs: seq<string>)
    requires xs != []
    requires forall i :: 0 <= i < |xs| ==> ',' !in xs[i]
    ensures Entries(Join(xs, ", ")) == xs
  {
    if |xs| == 1 {
      NoSeparatorFound(xs[0]);
    } else {
      var rest := Join(xs[1..], ", ");
      FirstSeparatorAfter(xs[0], rest);
      var s := xs[0] + ", " + rest;
      assert s[..|xs[0]|] == xs[0];
      assert s[|xs[0]| + 2..] == rest;
      EntriesOfJoin(xs[1..]);
    }
  }
}
